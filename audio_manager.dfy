/**
 * The sound library of src/audio_manager.py: loading the playable files of the
 * audio folder into two parallel lists (decoded sounds and their file names),
 * picking and playing a random sound, the timed audio sequence, and the info
 * snapshot.
 *
 * The file system and the audio engine are oracles: the folder is a `Folder`
 * value, decoding is a function from a path to a `DecodeOutcome`, a played
 * sound is an element of a returned sequence, and the clock is an abstract
 * elapsed time advanced by nondeterministic waits and pauses.
 */
module Audio {
  import opened Wrappers
  import Config

  /** A decoded sound, as handed back by the audio engine. */
  datatype Sound = Sound(handle: nat)

  /** What decoding one file does. */
  datatype DecodeOutcome =
    | Decoded(sound: Sound)
      /** The engine's own error: logged, and the file is skipped. */
    | DecodeError(message: string)
      /** Any other exception: caught by the outer handler, which ends the scan. */
    | UnexpectedError(message: string)

  /** The audio folder as the load finds it. */
  datatype Folder =
    | Missing
      /** The folder exists but listing it raises. */
    | Unreadable(message: string)
    | Listing(entries: seq<string>)

  /** The two parallel lists, as a value. */
  datatype Library = Library(sounds: seq<Sound>, filenames: seq<string>)

  /** The snapshot returned by the info query. */
  datatype AudioInfo = AudioInfo(totalSounds: nat, sounds: seq<string>, audioFolder: string)

  /** The reply of a single random playback. */
  datatype PlayReply =
    | Played(message: string, filename: string, totalSounds: nat)
    | NotPlayed(message: string)
  {
    predicate Success() { Played? }
  }

  const NO_AUDIO_MESSAGE: string := "No audio files available to play."
  const PLAY_ERROR_PREFIX: string := "Error playing audio: "

  // ---------------------------------------------------------------------
  // File names

  function LowerChar(c: char): char {
    if 'A' <= c <= 'Z' then (c as int + 32) as char else c
  }

  function Lower(s: string): string {
    seq(|s|, i requires 0 <= i < |s| => LowerChar(s[i]))
  }

  predicate EndsWith(s: string, suffix: string) {
    |suffix| <= |s| && s[|s| - |suffix|..] == suffix
  }

  /** The lowercased name ends in ".wav" or ".mp3". */
  predicate HasAudioExtension(name: string) {
    var lower := Lower(name);
    EndsWith(lower, ".wav") || EndsWith(lower, ".mp3")
  }

  /** Joining a folder and a file name as the path library does. */
  function JoinPath(folder: string, name: string): string {
    if |name| > 0 && name[0] == '/' then name
    else if folder == [] || folder[|folder| - 1] == '/' then folder + name
    else folder + "/" + name
  }

  function PathOf(name: string): string {
    JoinPath(Config.AUDIO_FOLDER, name)
  }

  // ---------------------------------------------------------------------
  // The load, as a function of the folder and the decoder

  /** Entry `name` is an audio file that decodes. */
  predicate Keeps(name: string, decode: string -> DecodeOutcome) {
    HasAudioExtension(name) && decode(PathOf(name)).Decoded?
  }

  /** Entry `name` is an audio file whose decoding raises an unexpected error. */
  predicate Aborts(name: string, decode: string -> DecodeOutcome) {
    HasAudioExtension(name) && decode(PathOf(name)).UnexpectedError?
  }

  predicate NoAbort(entries: seq<string>, decode: string -> DecodeOutcome) {
    forall i :: 0 <= i < |entries| ==> !Aborts(entries[i], decode)
  }

  function Append(a: Library, b: Library): Library {
    Library(a.sounds + b.sounds, a.filenames + b.filenames)
  }

  /** What the scan over `entries` appends to the (freshly emptied) lists. */
  function Preload(entries: seq<string>, decode: string -> DecodeOutcome): (r: Library)
    ensures |r.sounds| == |r.filenames|
    decreases |entries|
  {
    if entries == [] then Library([], [])
    else if !HasAudioExtension(entries[0]) then Preload(entries[1..], decode)
    else match decode(PathOf(entries[0]))
      case Decoded(s) =>
        var rest := Preload(entries[1..], decode);
        Library([s] + rest.sounds, [entries[0]] + rest.filenames)
      case DecodeError(_) => Preload(entries[1..], decode)
      case UnexpectedError(_) => Library([], [])
  }

  /** The library after a load of the folder. */
  function Load(dir: Folder, decode: string -> DecodeOutcome): Library {
    match dir
    case Missing => Library([], [])
    case Unreadable(_) => Library([], [])
    case Listing(entries) => Preload(entries, decode)
  }

  /** One step of the scan, at position `i` of the listing. */
  lemma PreloadUnfold(entries: seq<string>, i: nat, decode: string -> DecodeOutcome)
    requires i < |entries|
    ensures !HasAudioExtension(entries[i]) ==>
      Preload(entries[i..], decode) == Preload(entries[i + 1..], decode)
    ensures Keeps(entries[i], decode) ==>
      var rest := Preload(entries[i + 1..], decode);
      Preload(entries[i..], decode)
        == Library([decode(PathOf(entries[i])).sound] + rest.sounds, [entries[i]] + rest.filenames)
    ensures HasAudioExtension(entries[i]) && decode(PathOf(entries[i])).DecodeError? ==>
      Preload(entries[i..], decode) == Preload(entries[i + 1..], decode)
    ensures Aborts(entries[i], decode) ==> Preload(entries[i..], decode) == Library([], [])
  {
    assert entries[i..][0] == entries[i];
    assert entries[i..][1..] == entries[i + 1..];
  }

  lemma AppendShift(lib: Library, s: Sound, name: string, rest: Library)
    ensures Append(Library(lib.sounds + [s], lib.filenames + [name]), rest)
         == Append(lib, Library([s] + rest.sounds, [name] + rest.filenames))
  {
    assert lib.sounds + [s] + rest.sounds == lib.sounds + ([s] + rest.sounds);
    assert lib.filenames + [name] + rest.filenames == lib.filenames + ([name] + rest.filenames);
  }

  lemma EmptyRight(lib: Library)
    ensures Append(lib, Library([], [])) == lib
  {
    assert lib.sounds + [] == lib.sounds;
    assert lib.filenames + [] == lib.filenames;
  }

  /** The snapshot of a library. */
  function Info(lib: Library): AudioInfo {
    AudioInfo(|lib.sounds|, lib.filenames, Config.AUDIO_FOLDER)
  }

  /** The entries that are audio files that decode, in listing order, each as often as it is listed. */
  function KeptNames(entries: seq<string>, decode: string -> DecodeOutcome): seq<string>
    decreases |entries|
  {
    if entries == [] then []
    else (if Keeps(entries[0], decode) then [entries[0]] else []) + KeptNames(entries[1..], decode)
  }

  /** `a` is `b` with some elements left out, the rest in the same order. */
  predicate IsSubsequence(a: seq<string>, b: seq<string>)
    decreases |b|
  {
    if b == [] then a == []
    else (a != [] && a[0] == b[0] && IsSubsequence(a[1..], b[1..])) || IsSubsequence(a, b[1..])
  }

  // ---------------------------------------------------------------------
  // Properties of the load

  /** Each kept name is an audio file name, and the sound beside it is what decoding that file gave. */
  lemma {:induction false} PreloadPaired(entries: seq<string>, decode: string -> DecodeOutcome)
    ensures var r := Preload(entries, decode);
      |r.sounds| == |r.filenames| &&
      forall i :: 0 <= i < |r.filenames| ==>
        HasAudioExtension(r.filenames[i]) && decode(PathOf(r.filenames[i])) == Decoded(r.sounds[i])
    decreases |entries|
  {
    if entries != [] {
      PreloadPaired(entries[1..], decode);
    }
  }

  /**
   * When no file raises an unexpected error, the kept names are exactly the
   * audio entries that decode, in listing order.
   */
  lemma {:induction false} PreloadSelects(entries: seq<string>, decode: string -> DecodeOutcome)
    requires NoAbort(entries, decode)
    ensures Preload(entries, decode).filenames == KeptNames(entries, decode)
    ensures forall x :: x in Preload(entries, decode).filenames <==> x in entries && Keeps(x, decode)
    ensures IsSubsequence(Preload(entries, decode).filenames, entries)
    decreases |entries|
  {
    if entries != [] {
      assert NoAbort(entries[1..], decode) by {
        forall i | 0 <= i < |entries[1..]| ensures !Aborts(entries[1..][i], decode) {
          assert entries[1..][i] == entries[i + 1];
        }
      }
      PreloadSelects(entries[1..], decode);
      assert !Aborts(entries[0], decode);
      assert entries == [entries[0]] + entries[1..];
    }
  }

  /** Without an unexpected error in `a`, scanning `a + b` keeps what `a` keeps followed by what `b` keeps. */
  lemma {:induction false} PreloadConcat(a: seq<string>, b: seq<string>, decode: string -> DecodeOutcome)
    requires NoAbort(a, decode)
    ensures Preload(a + b, decode) == Append(Preload(a, decode), Preload(b, decode))
    decreases |a|
  {
    if a == [] {
      assert a + b == b;
    } else {
      assert (a + b)[0] == a[0];
      assert (a + b)[1..] == a[1..] + b;
      assert !Aborts(a[0], decode);
      assert NoAbort(a[1..], decode) by {
        forall i | 0 <= i < |a[1..]| ensures !Aborts(a[1..][i], decode) {
          assert a[1..][i] == a[i + 1];
        }
      }
      PreloadConcat(a[1..], b, decode);
    }
  }

  /** Without an unexpected error in `a + b`, neither part has one. */
  lemma NoAbortSplit(a: seq<string>, b: seq<string>, decode: string -> DecodeOutcome)
    requires NoAbort(a + b, decode)
    ensures NoAbort(a, decode) && NoAbort(b, decode)
  {
    forall i | 0 <= i < |a| ensures !Aborts(a[i], decode) {
      assert (a + b)[i] == a[i];
    }
    forall i | 0 <= i < |b| ensures !Aborts(b[i], decode) {
      assert (a + b)[|a| + i] == b[i];
    }
  }

  /**
   * A playable file inserted anywhere into a listing without unexpected
   * errors is kept in that place: the load gains exactly that one name.
   */
  lemma PreloadInsertKept(a: seq<string>, x: string, b: seq<string>, decode: string -> DecodeOutcome)
    requires NoAbort(a + b, decode) && Keeps(x, decode)
    ensures Preload(a + [x] + b, decode).filenames
         == Preload(a, decode).filenames + [x] + Preload(b, decode).filenames
    ensures |Preload(a + [x] + b, decode).filenames| == |Preload(a + b, decode).filenames| + 1
  {
    NoAbortSplit(a, b, decode);
    assert a + [x] + b == a + ([x] + b);
    PreloadConcat(a, [x] + b, decode);
    PreloadConcat(a, b, decode);
    PreloadUnfold([x] + b, 0, decode);
    assert ([x] + b)[0..] == [x] + b;
    assert ([x] + b)[1..] == b;
  }

  /** An unexpected error ends the scan: nothing from that entry on is kept. */
  lemma PreloadStopsAtUnexpected(a: seq<string>, e: string, b: seq<string>, decode: string -> DecodeOutcome)
    requires NoAbort(a, decode) && Aborts(e, decode)
    ensures Preload(a + [e] + b, decode) == Preload(a, decode)
  {
    assert a + [e] + b == a + ([e] + b);
    PreloadConcat(a, [e] + b, decode);
    assert ([e] + b)[0] == e;
    assert Preload(a, decode).sounds + [] == Preload(a, decode).sounds;
    assert Preload(a, decode).filenames + [] == Preload(a, decode).filenames;
  }

  /** The example of the project's tests: three audio files in mixed case are kept, the text file is not. */
  lemma LoadMixedCaseExample(decode: string -> DecodeOutcome)
    requires forall p :: decode(p).Decoded?
    ensures Load(Listing(["sound1.wav", "sound2.mp3", "sound3.WAV", "ignore.txt"]), decode).filenames
         == ["sound1.wav", "sound2.mp3", "sound3.WAV"]
  {
    var es := ["sound1.wav", "sound2.mp3", "sound3.WAV", "ignore.txt"];
    assert Lower(es[0])[6..] == ".wav";
    assert Lower(es[1])[6..] == ".mp3";
    assert Lower(es[2])[6..] == ".wav";
    assert Lower(es[3])[6..] == ".txt";
    assert es[1..][1..][1..][1..] == [];
  }

  /** A file that fails to decode is dropped and the good one is kept. */
  lemma LoadDecodeFailureExample(decode: string -> DecodeOutcome, s: Sound, msg: string)
    requires decode(PathOf("good.wav")) == Decoded(s)
    requires decode(PathOf("bad.mp3")) == DecodeError(msg)
    ensures Load(Listing(["good.wav", "bad.mp3"]), decode) == Library([s], ["good.wav"])
  {
    var es := ["good.wav", "bad.mp3"];
    assert Lower(es[0])[4..] == ".wav";
    assert Lower(es[1])[3..] == ".mp3";
    assert es[1..][1..] == [];
  }

  // ---------------------------------------------------------------------
  // The audio manager object

  class AudioManager {
    /** The decoded sounds, parallel to `audioFilenames`. */
    var preloadedSounds: seq<Sound>
    var audioFilenames: seq<string>
    /** Whether the audio engine's mixer is initialised. */
    var mixerInitialized: bool

    ghost predicate Valid()
      reads this
    {
      |preloadedSounds| == |audioFilenames|
    }

    function Contents(): Library
      reads this
    {
      Library(preloadedSounds, audioFilenames)
    }

    constructor ()
      ensures Valid()
      ensures mixerInitialized && preloadedSounds == [] && audioFilenames == []
    {
      mixerInitialized := true;
      preloadedSounds := [];
      audioFilenames := [];
    }

    /**
     * Replaces both lists by the playable files of the folder: the previous
     * contents are dropped whatever they were, so two loads of the same folder
     * with the same decoder leave the same state.
     */
    method LoadAudioFiles(dir: Folder, decode: string -> DecodeOutcome)
      modifies this
      ensures Valid()
      ensures Contents() == Load(dir, decode)
      ensures mixerInitialized == old(mixerInitialized)
    {
      preloadedSounds := [];
      audioFilenames := [];
      if !dir.Listing? {
        return;
      }
      var entries := dir.entries;
      var i := 0;
      while i < |entries|
        invariant 0 <= i <= |entries|
        invariant Valid()
        invariant Append(Contents(), Preload(entries[i..], decode)) == Preload(entries, decode)
        invariant mixerInitialized == old(mixerInitialized)
      {
        var filename := entries[i];
        PreloadUnfold(entries, i, decode);
        if HasAudioExtension(filename) {
          var outcome := decode(JoinPath(Config.AUDIO_FOLDER, filename));
          if outcome.Decoded? {
            AppendShift(Contents(), outcome.sound, filename, Preload(entries[i + 1..], decode));
            preloadedSounds := preloadedSounds + [outcome.sound];
            audioFilenames := audioFilenames + [filename];
          } else if outcome.UnexpectedError? {
            EmptyRight(Contents());
            return;
          }
        }
        i := i + 1;
      }
      assert entries[i..] == [];
      EmptyRight(Contents());
    }

    /**
     * Picks a sound at random and starts it. `playFault` is the error the
     * engine raises when starting playback, if it does. The second result is
     * the sound that was started.
     */
    method PlayRandomSound(playFault: Option<string>) returns (r: PlayReply, played: Option<Sound>)
      requires Valid()
      ensures preloadedSounds == [] ==> r == NotPlayed(NO_AUDIO_MESSAGE) && played == None
      ensures preloadedSounds != [] && playFault.Some? ==>
        r == NotPlayed(PLAY_ERROR_PREFIX + playFault.value) && played == None
      ensures preloadedSounds != [] && playFault.None? ==>
        exists i :: 0 <= i < |audioFilenames| &&
          r == Played("Playing " + audioFilenames[i], audioFilenames[i], |preloadedSounds|) &&
          played == Some(preloadedSounds[i])
    {
      if preloadedSounds == [] {
        return NotPlayed(NO_AUDIO_MESSAGE), None;
      }
      var index :| 0 <= index < |preloadedSounds|;
      var sound := preloadedSounds[index];
      var filename := audioFilenames[index];
      if playFault.Some? {
        return NotPlayed(PLAY_ERROR_PREFIX + playFault.value), None;
      }
      r := Played("Playing " + filename, filename, |preloadedSounds|);
      played := Some(sound);
    }

    /**
     * Plays random sounds one after another until the elapsed time reaches
     * the target duration. Each round records the chosen name, starts the
     * sound, waits for the mixer to go idle (any non-negative time) and then
     * pauses for a time in the configured pause range. An exception ends the
     * sequence (`completed` is then false). If it comes from starting the
     * sound, the round's sound is recorded as chosen but not started; if it
     * comes from waiting or pausing, the sound was started. Results: the
     * chosen indices, the names chosen, the sounds started, and the elapsed
     * time of the abstract clock.
     */
    method PlayAudioSequence() returns (indices: seq<int>, names: seq<string>, plays: seq<Sound>,
                                        elapsed: real, completed: bool, ghost starts: seq<real>)
      requires Valid()
      ensures |indices| == |names|
      ensures |starts| == |names|
      ensures forall k :: 0 <= k < |starts| ==> starts[k] < Config.TARGET_AUDIO_DURATION as real
      ensures starts != [] ==> starts[0] == 0.0
      ensures forall k :: 0 < k < |starts| ==> starts[k] >= starts[k - 1] + Config.MIN_PAUSE_BETWEEN_SOUNDS
      ensures completed ==> |plays| == |names|
      ensures !completed ==> |names| >= 1 && (|plays| == |names| || |plays| == |names| - 1)
      ensures forall k :: 0 <= k < |indices| ==>
        0 <= indices[k] < |preloadedSounds| && names[k] == audioFilenames[indices[k]]
      ensures forall k :: 0 <= k < |plays| ==> plays[k] == preloadedSounds[indices[k]]
      ensures preloadedSounds == [] ==> names == [] && plays == [] && completed
      ensures preloadedSounds != [] ==> |names| >= 1
      ensures preloadedSounds != [] && completed ==> |plays| >= 1
      ensures preloadedSounds != [] && completed ==> elapsed >= Config.TARGET_AUDIO_DURATION as real
      ensures |names| as real * Config.MIN_PAUSE_BETWEEN_SOUNDS <= elapsed || !completed
      ensures (|names| - 1) as real * Config.MIN_PAUSE_BETWEEN_SOUNDS < Config.TARGET_AUDIO_DURATION as real
    {
      indices, names, plays, starts := [], [], [], [];
      elapsed, completed := 0.0, true;
      if preloadedSounds == [] {
        return;
      }
      while elapsed < Config.TARGET_AUDIO_DURATION as real
        invariant |indices| == |names| == |plays|
        invariant forall k :: 0 <= k < |indices| ==>
          0 <= indices[k] < |preloadedSounds| &&
          names[k] == audioFilenames[indices[k]] && plays[k] == preloadedSounds[indices[k]]
        invariant |names| as real * Config.MIN_PAUSE_BETWEEN_SOUNDS <= elapsed
        invariant (|names| - 1) as real * Config.MIN_PAUSE_BETWEEN_SOUNDS < Config.TARGET_AUDIO_DURATION as real
        invariant completed
        invariant names != [] || elapsed == 0.0
        invariant |starts| == |names|
        invariant forall k :: 0 <= k < |starts| ==> starts[k] < Config.TARGET_AUDIO_DURATION as real
        invariant starts != [] ==> starts[0] == 0.0
        invariant forall k :: 0 < k < |starts| ==> starts[k] >= starts[k - 1] + Config.MIN_PAUSE_BETWEEN_SOUNDS
        invariant starts != [] ==> elapsed >= starts[|starts| - 1] + Config.MIN_PAUSE_BETWEEN_SOUNDS
        decreases 2 * Config.TARGET_AUDIO_DURATION - |names|
      {
        starts := starts + [elapsed];
        var index :| 0 <= index < |preloadedSounds|;
        indices := indices + [index];
        names := names + [audioFilenames[index]];
        var playFails: bool :| true;
        if playFails {
          completed := false;
          break;
        }
        plays := plays + [preloadedSounds[index]];
        var waitFails: bool :| true;
        if waitFails {
          completed := false;
          break;
        }
        var wait: real :| wait >= 0.0;
        assert Config.InPauseRange(Config.MIN_PAUSE_BETWEEN_SOUNDS);
        var pause: real :| Config.InPauseRange(pause);
        assert Config.InPauseRange(pause);
        assert (|names| as real) * Config.MIN_PAUSE_BETWEEN_SOUNDS
            == (|names| - 1) as real * Config.MIN_PAUSE_BETWEEN_SOUNDS + Config.MIN_PAUSE_BETWEEN_SOUNDS;
        elapsed := elapsed + wait + pause;
      }
    }

    /** The snapshot: the count, a copy of the file names, the folder. */
    function GetAudioInfo(): (info: AudioInfo)
      reads this
      requires Valid()
      ensures info.totalSounds == |info.sounds| && info.sounds == audioFilenames
      ensures info.audioFolder == Config.AUDIO_FOLDER
    {
      Info(Contents())
    }

    /** Shuts the mixer down. */
    method Cleanup()
      modifies this
      ensures !mixerInitialized
      ensures preloadedSounds == old(preloadedSounds) && audioFilenames == old(audioFilenames)
    {
      mixerInitialized := false;
    }
  }
}
