/** Which files of the input folder are transcribed, and in which order:
    the fixed extension sets `VIDEO_EXTS` / `AUDIO_EXTS`, compared after
    `str.lower()`, and `sorted(...)` over the matching regular files. */
module Media {
  import opened PyText
  import opened FileNames

  const VideoExts: set<string> := {".mp4", ".mov", ".mkv", ".avi", ".mpg", ".mpeg", ".m4v", ".webm"}
  const AudioExts: set<string> := {".wav", ".mp3", ".m4a", ".aac", ".flac", ".ogg", ".opus", ".wma"}

  datatype Kind = Video | Audio | Unsupported

  /** `p.suffix.lower() in (VIDEO_EXTS | AUDIO_EXTS)` */
  predicate IsCandidate(name: string) {
    Lower(Suffix(name)) in VideoExts + AudioExts
  }

  /** `src.suffix.lower() in VIDEO_EXTS`: a video is sent through ffmpeg first. */
  predicate IsVideo(name: string) {
    Lower(Suffix(name)) in VideoExts
  }

  /** The kind of a file, by the lower-cased suffix; ClassifyJoin states it
      for a name built from a stem and an extension, ClassifyKinds for every name. */
  function Classify(name: string): Kind {
    var ext := Lower(Suffix(name));
    if ext in VideoExts then Video else if ext in AudioExts then Audio else Unsupported
  }

  /** A file is a video or audio exactly when it is a candidate, a video
      exactly when IsVideo holds, and unsupported exactly when it is neither. */
  lemma ClassifyKinds(name: string)
    ensures Classify(name) == Video <==> IsVideo(name)
    ensures Classify(name) == Audio <==> IsCandidate(name) && !IsVideo(name)
    ensures Classify(name) == Unsupported <==> !IsCandidate(name)
  {
  }

  /** No extension is both a video and an audio extension. */
  lemma ExtensionsDisjoint()
    ensures VideoExts * AudioExts == {}
  {
  }

  /** A non-empty stem followed by a supported extension, in any mixture of
      upper and lower case, is a candidate, is a video exactly when the
      extension is a video one, and is classified by that extension. */
  lemma ClassifyJoin(stem: string, ext: string)
    requires stem != [] && Lower(ext) in VideoExts + AudioExts
    ensures IsCandidate(stem + ext)
    ensures IsVideo(stem + ext) <==> Lower(ext) in VideoExts
    ensures Classify(stem + ext) == if Lower(ext) in VideoExts then Video else Audio
  {
    var e := Lower(ext);
    assert |e| >= 2 && e[0] == '.' && '.' !in e[1..];
    assert ext[0] == '.' by {
      assert LowerChar(ext[0]) == '.';
    }
    assert '.' !in ext[1..] by {
      forall j | 0 <= j < |ext[1..]|
        ensures ext[1..][j] != '.'
      {
        assert e[1..][j] == LowerChar(ext[1 + j]);
      }
    }
    SuffixOfJoin(stem, ext);
  }

  /** `m` is the least element of `s` in Python's string order. */
  predicate IsLeast(m: string, s: set<string>) {
    m in s && forall x :: x in s ==> LexLe(m, x)
  }

  lemma {:induction false} LeastExists(s: set<string>)
    requires s != {}
    ensures exists m :: IsLeast(m, s)
    decreases |s|
  {
    var x :| x in s;
    if s != {x} {
      LeastExists(s - {x});
      var m :| IsLeast(m, s - {x});
      LexLeTotal(x, m);
      if LexLe(x, m) {
        forall y | y in s ensures LexLe(x, y) {
          if y != x {
            LexLeTransitive(x, m, y);
          } else {
            LexLeReflexive(x);
          }
        }
        assert IsLeast(x, s);
      } else {
        assert LexLe(m, x);
        assert IsLeast(m, s);
      }
    } else {
      assert IsLeast(x, s) by {
        LexLeReflexive(x);
      }
    }
  }

  lemma LeastUnique(s: set<string>)
    ensures forall a, b :: IsLeast(a, s) && IsLeast(b, s) ==> a == b
  {
    forall a, b | IsLeast(a, s) && IsLeast(b, s) ensures a == b {
      LexLeAntisymmetric(a, b);
    }
  }

  /** `sorted(s)`: the elements of `s`, each once, in ascending order. */
  function SortedNames(s: set<string>): (r: seq<string>)
    ensures |r| == |s|
    ensures forall x :: x in r <==> x in s
    ensures forall i, j :: 0 <= i < j < |r| ==> LexLe(r[i], r[j]) && r[i] != r[j]
    decreases |s|
  {
    if s == {} then []
    else
      LeastExists(s);
      LeastUnique(s);
      var m :| IsLeast(m, s);
      [m] + SortedNames(s - {m})
  }

  /** The files the batch works on: every regular file of the folder with a
      supported extension, each once, in ascending order of name.  All of them
      share the folder, so under POSIX path order (code point by code point)
      the order of the paths is the order of their names. */
  function Discover(fileNames: set<string>): (r: seq<string>)
    ensures forall x :: x in r <==> x in fileNames && IsCandidate(x)
    ensures forall i, j :: 0 <= i < j < |r| ==> LexLe(r[i], r[j]) && r[i] != r[j]
  {
    SortedNames(set n | n in fileNames && IsCandidate(n))
  }

  lemma TalkIsVideo()
    ensures IsCandidate("talk.mp4") && IsVideo("talk.mp4")
  {
    LowerUnchanged(".mp4");
    assert "talk" + ".mp4" == "talk.mp4";
    ClassifyJoin("talk", ".mp4");
  }

  /** An upper-case extension is accepted: `clip.MP4` is a video. */
  lemma UpperCaseIsVideo()
    ensures IsCandidate("clip.MP4") && IsVideo("clip.MP4")
  {
    assert Lower(".MP4") == ".mp4" by {
      var r := Lower(".MP4");
      assert r[0] == '.' && r[1] == 'm' && r[2] == 'p' && r[3] == '4';
    }
    assert "clip" + ".MP4" == "clip.MP4";
    ClassifyJoin("clip", ".MP4");
  }

  lemma NotesIsNotMedia()
    ensures !IsCandidate("notes.txt")
  {
    LowerUnchanged(".txt");
    assert "notes" + ".txt" == "notes.txt";
    SuffixOfJoin("notes", ".txt");
  }

  /** A folder holding one video and one text file: only the video is found. */
  lemma DiscoverVideoAndText()
    ensures Discover({"talk.mp4", "notes.txt"}) == ["talk.mp4"]
  {
    TalkIsVideo();
    NotesIsNotMedia();
    var r := Discover({"talk.mp4", "notes.txt"});
    assert "talk.mp4" in r;
    assert forall x :: x in r ==> x == "talk.mp4";
  }
}
