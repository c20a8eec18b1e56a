/**
 * The HTTP handlers of src/api_routes.py, as functions and methods over the
 * sound library and the controller. The web framework (routing, JSON
 * encoding, method filtering) is not modelled: a reply is a datatype with
 * the JSON object's fields. A background thread a handler starts is a
 * `Task` value in the handler's result.
 */
module Api {
  import opened Wrappers
  import Config
  import Audio
  import Trickster

  datatype StatusReply = StatusReply(status: string, callbackInProgress: bool, totalSounds: nat,
                                     soundsLoaded: bool, audioFolder: string)

  datatype SoundsReply = SoundsReply(totalSounds: nat, sounds: seq<string>)

  datatype TriggerReply = TriggerReply(success: bool, message: string, delayRange: Option<string>)

  /** A background task started by a handler. */
  datatype Task = ButtonCallbackTask(channel: Option<nat>)

  /** The reply of `/trigger`, with the tasks it starts. */
  datatype TriggerDispatch = TriggerDispatch(reply: TriggerReply, started: seq<Task>)

  datatype ReloadReply =
    | Reloaded(message: string, previousCount: nat, newCount: nat, change: int,
               audioFolder: string, loadedFiles: seq<string>)
    | ReloadFailed(message: string)

  const BUSY_MESSAGE: string := "Action already in progress, ignoring trigger"
  const TRIGGERED_MESSAGE: string := "Delayed action triggered (10-20 second random delay)"
  const DELAY_RANGE: string := "10-20 seconds"
  const RELOADED_MESSAGE: string := "Audio files reloaded successfully"
  const RELOAD_ERROR_PREFIX: string := "Error reloading audio files: "

  // ---------------------------------------------------------------------
  // /play

  /** The reply of `/play` is the library's reply to a random playback, unchanged. */
  method ApiPlaySound(audio: Audio.AudioManager, playFault: Option<string>) returns (r: Audio.PlayReply)
    requires audio.Valid()
    ensures audio.preloadedSounds == [] ==> r == Audio.NotPlayed(Audio.NO_AUDIO_MESSAGE)
    ensures audio.preloadedSounds != [] && playFault.Some? ==>
      r == Audio.NotPlayed(Audio.PLAY_ERROR_PREFIX + playFault.value)
    ensures audio.preloadedSounds != [] && playFault.None? ==>
      exists i :: 0 <= i < |audio.audioFilenames| &&
        r == Audio.Played("Playing " + audio.audioFilenames[i], audio.audioFilenames[i], |audio.preloadedSounds|)
  {
    var played;
    r, played := audio.PlayRandomSound(playFault);
  }

  // ---------------------------------------------------------------------
  // /status and /sounds

  /** The status reply for a busy flag and a library snapshot. */
  function StatusFor(busy: bool, info: Audio.AudioInfo): StatusReply {
    StatusReply("running", busy, info.totalSounds, info.totalSounds > 0, info.audioFolder)
  }

  /** `/status`: always "running"; the flag and the library as they are; sounds are loaded exactly when some file name is. */
  function ApiStatus(controller: Trickster.TricksterController, audio: Audio.AudioManager): (r: StatusReply)
    reads controller, audio
    requires audio.Valid()
    ensures r.status == "running"
    ensures r.callbackInProgress == controller.callbackInProgress
    ensures r.totalSounds == |audio.audioFilenames|
    ensures r.soundsLoaded <==> audio.audioFilenames != []
    ensures r.audioFolder == Config.AUDIO_FOLDER
  {
    StatusFor(controller.IsBusy(), audio.GetAudioInfo())
  }

  /** `/sounds`: the library's file names and their number. */
  function ApiListSounds(audio: Audio.AudioManager): (r: SoundsReply)
    reads audio
    requires audio.Valid()
    ensures r.sounds == audio.audioFilenames && r.totalSounds == |r.sounds|
  {
    var info := audio.GetAudioInfo();
    SoundsReply(info.totalSounds, info.sounds)
  }

  /**
   * After a load of a folder in which no file raises an unexpected error,
   * the status reports sounds as loaded exactly when some entry is an audio
   * file that decodes.
   */
  lemma StatusAfterLoad(busy: bool, entries: seq<string>, decode: string -> Audio.DecodeOutcome)
    requires Audio.NoAbort(entries, decode)
    ensures var r := StatusFor(busy, Audio.Info(Audio.Load(Audio.Listing(entries), decode)));
      r.soundsLoaded <==> exists i :: 0 <= i < |entries| && Audio.Keeps(entries[i], decode)
  {
    var names := Audio.Preload(entries, decode).filenames;
    Audio.PreloadSelects(entries, decode);
    if exists i :: 0 <= i < |entries| && Audio.Keeps(entries[i], decode) {
      var i :| 0 <= i < |entries| && Audio.Keeps(entries[i], decode);
      assert entries[i] in names;
    }
    if names != [] {
      assert names[0] in names;
      var i :| 0 <= i < |entries| && entries[i] == names[0];
    }
  }

  /** The status of an empty library reports no sounds loaded. */
  lemma StatusOfEmptyLibrary(busy: bool)
    ensures var r := StatusFor(busy, Audio.Info(Audio.Load(Audio.Missing, x => Audio.DecodeError(""))));
      !r.soundsLoaded && r.totalSounds == 0
  {
  }

  // ---------------------------------------------------------------------
  // /trigger

  /** What `/trigger` does for a given busy flag. */
  function TriggerFor(busy: bool): (r: TriggerDispatch)
    ensures r.reply.success <==> !busy
    ensures r.started == [] <==> busy
    ensures busy ==> r.reply == TriggerReply(false, BUSY_MESSAGE, None)
    ensures !busy ==> r.reply == TriggerReply(true, TRIGGERED_MESSAGE, Some(DELAY_RANGE)) &&
                      r.started == [ButtonCallbackTask(None)]
  {
    if busy then TriggerDispatch(TriggerReply(false, BUSY_MESSAGE, None), [])
    else TriggerDispatch(TriggerReply(true, TRIGGERED_MESSAGE, Some(DELAY_RANGE)), [ButtonCallbackTask(None)])
  }

  /** `/trigger`: rejected without starting anything while busy, otherwise starts one background callback. */
  function ApiTriggerDelayed(controller: Trickster.TricksterController): (r: TriggerDispatch)
    reads controller
    ensures controller.callbackInProgress ==> !r.reply.success && r.started == []
    ensures !controller.callbackInProgress ==> r.reply.success && |r.started| == 1
    ensures controller.Valid() ==> (r.reply.success <==> !Trickster.FlagAfter(false, controller.trace))
  {
    TriggerFor(controller.IsBusy())
  }

  /**
   * A trigger accepted from idle starts a callback; a second trigger that
   * arrives at any point while that callback runs (after its first effect
   * and before its last) is rejected and starts nothing.
   */
  lemma TriggerDuringRunRejected(delay: real, faults: Trickster.Faults)
    ensures TriggerFor(false).reply.success
    ensures var r := Trickster.ButtonCallbackRun(false, delay, faults);
      forall k :: 1 <= k < |r.effects| ==>
        var second := TriggerFor(Trickster.FlagAfter(false, r.effects[..k]));
        !second.reply.success && second.started == []
  {
    Trickster.FlagFollowsTrace(false, delay, faults);
  }

  function DigitChar(d: nat): char
    requires d < 10
  {
    "0123456789"[d]
  }

  /** Decimal notation of a natural number. */
  function NatToString(n: nat): (s: string)
    ensures |s| >= 1
    decreases n
  {
    if n < 10 then [DigitChar(n)] else NatToString(n / 10) + [DigitChar(n % 10)]
  }

  /** The delay range the reply announces is the configured one. */
  lemma DelayRangeMatchesConfig()
    ensures DELAY_RANGE == NatToString(Config.MIN_DELAY as nat) + "-" + NatToString(Config.MAX_DELAY as nat) + " seconds"
  {
    assert NatToString(1) == "1";
    assert NatToString(2) == "2";
    assert NatToString(10) == "10";
    assert NatToString(20) == "20";
  }

  // ---------------------------------------------------------------------
  // /reload

  /** The reply of a reload that went through, from the snapshots before and after. */
  function ReloadResult(previous: Audio.AudioInfo, next: Audio.AudioInfo): ReloadReply {
    Reloaded(RELOADED_MESSAGE, previous.totalSounds, next.totalSounds,
             next.totalSounds - previous.totalSounds, next.audioFolder, next.sounds)
  }

  /**
   * The reply of a reload reports the count before, the count after and the
   * new file names, and the change is their difference.
   */
  lemma ReloadReportsLoad(before: Audio.Library, dir: Audio.Folder, decode: string -> Audio.DecodeOutcome)
    ensures var after := Audio.Load(dir, decode);
      var r := ReloadResult(Audio.Info(before), Audio.Info(after));
      r.Reloaded? && r.previousCount == |before.sounds| && r.newCount == |after.filenames| &&
      r.previousCount + r.change == r.newCount && r.loadedFiles == after.filenames
  {
  }

  /**
   * Two playable files that appear anywhere in a listing without unexpected
   * errors make the reload report a change of 2, and both new names are
   * among the loaded files.
   */
  lemma ReloadTwoNewFiles(a: seq<string>, b: seq<string>, c: seq<string>, x: string, y: string,
                          decode: string -> Audio.DecodeOutcome)
    requires Audio.NoAbort(a + b + c, decode)
    requires Audio.Keeps(x, decode) && Audio.Keeps(y, decode)
    ensures var r := ReloadResult(Audio.Info(Audio.Load(Audio.Listing(a + b + c), decode)),
                                  Audio.Info(Audio.Load(Audio.Listing(a + [x] + b + [y] + c), decode)));
      r.change == 2 && r.newCount == r.previousCount + 2 && x in r.loadedFiles && y in r.loadedFiles
  {
    var ab := a + [x] + b;
    assert a + b + c == a + (b + c);
    assert a + [x] + (b + c) == ab + c;
    Audio.PreloadInsertKept(a, x, b + c, decode);
    assert Audio.NoAbort(ab + c, decode) by {
      Audio.NoAbortSplit(a, b + c, decode);
      forall i | 0 <= i < |ab + c| ensures !Audio.Aborts((ab + c)[i], decode) {
        if i < |a| {
          assert (ab + c)[i] == (a + (b + c))[i];
        } else if i > |a| {
          assert (ab + c)[i] == (a + (b + c))[i - 1];
        }
      }
    }
    assert ab + [y] + c == a + [x] + b + [y] + c;
    Audio.PreloadInsertKept(ab, y, c, decode);
    var final := Audio.Preload(ab + [y] + c, decode).filenames;
    assert final == Audio.Preload(ab, decode).filenames + [y] + Audio.Preload(c, decode).filenames;
    assert y in final;
    Audio.NoAbortSplit(ab, c, decode);
    assert ab == a + ([x] + b);
    assert Audio.NoAbort(a + b, decode) by {
      Audio.NoAbortSplit(a + b, c, decode);
    }
    Audio.PreloadInsertKept(a, x, b, decode);
    assert x in Audio.Preload(ab, decode).filenames;
  }

  /**
   * `/reload`: snapshot, load, snapshot. The load's own failures are handled
   * inside it (a file is skipped, or the scan ends), and it empties both
   * lists before anything can raise; so an exception can reach this handler
   * only once the load has run: from the load's console output or from
   * building the reply. `replyFault` is that exception, if one is raised;
   * the reply then carries its text, and the library is the new one anyway.
   */
  method ApiReloadSounds(audio: Audio.AudioManager, dir: Audio.Folder, decode: string -> Audio.DecodeOutcome,
                         replyFault: Option<string>) returns (r: ReloadReply)
    requires audio.Valid()
    modifies audio
    ensures audio.Valid() && audio.Contents() == Audio.Load(dir, decode)
    ensures replyFault.Some? ==> r == ReloadFailed(RELOAD_ERROR_PREFIX + replyFault.value)
    ensures replyFault.None? ==>
      r == ReloadResult(Audio.Info(old(audio.Contents())), Audio.Info(Audio.Load(dir, decode)))
    ensures audio.mixerInitialized == old(audio.mixerInitialized)
  {
    var previousInfo := audio.GetAudioInfo();
    audio.LoadAudioFiles(dir, decode);
    if replyFault.Some? {
      return ReloadFailed(RELOAD_ERROR_PREFIX + replyFault.value);
    }
    var newInfo := audio.GetAudioInfo();
    r := ReloadResult(previousInfo, newInfo);
  }
}
