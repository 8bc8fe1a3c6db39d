/** The music player as a stateful component: its audio element, its React state, the
    interval ref the playback effect swaps, and the browser's set of live intervals. Every
    handler keeps at most one polling interval alive. */
module PlayerState {
  import opened Common
  import opened Player

  class MusicPlayer {
    /** Whether `audioRef.current` holds an audio element (only in a browser). */
    const hasAudio: bool
    // The audio element.
    var audioTime: real
    var audioDuration: real
    var audioPlaying: bool
    /** `loadedmetadata` listeners registered on the audio element. */
    var listeners: nat
    // React state.
    var duration: real
    var trackProgress: real
    var isPlaying: bool
    /** `intervalRef.current`; `None` while it is `undefined`. */
    var intervalRef: Option<nat>
    /** The intervals the browser would still fire, and the next id it will hand out. */
    var live: set<nat>
    var nextId: nat
    /** Whether the last run of the playback effect returned a cleanup React has not run yet. */
    var cleanupPending: bool

    ghost predicate Valid()
      reads this
    {
      && (forall id :: id in live ==> intervalRef == Some(id) && id < nextId)
      && (cleanupPending ==> hasAudio && listeners == 1 && audioPlaying == isPlaying)
      && (!cleanupPending ==> listeners == 0 && live == {})
      && (cleanupPending && isPlaying ==> intervalRef.Some? && live == {intervalRef.value})
      && (!isPlaying ==> live == {})
    }

    /** At most one polling interval is ever alive. */
    lemma AtMostOneInterval()
      requires Valid()
      ensures |live| <= 1
      ensures forall id :: id in live ==> intervalRef == Some(id)
    {
      if intervalRef.Some? {
        assert live <= {intervalRef.value};
      } else {
        assert live == {};
      }
    }

    /** Mounting: the state starts at zero and paused, the audio element exists only in a
        browser, and the playback effect's first run pauses it, clears the `undefined`
        interval (a no-op) and registers the `loadedmetadata` listener. */
    constructor(inBrowser: bool)
      ensures Valid()
      ensures hasAudio == inBrowser
      ensures audioTime == 0.0 && audioDuration == 0.0 && !audioPlaying
      ensures duration == 0.0 && trackProgress == 0.0 && !isPlaying
      ensures intervalRef.None? && live == {} && nextId == 1
      ensures cleanupPending == inBrowser && listeners == (if inBrowser then 1 else 0)
    {
      hasAudio := inBrowser;
      audioTime, audioDuration, audioPlaying := 0.0, 0.0, false;
      duration, trackProgress, isPlaying := 0.0, 0.0, false;
      intervalRef, live, nextId := None, {}, 1;
      cleanupPending := inBrowser;
      listeners := if inBrowser then 1 else 0;
    }

    /** `clearInterval(id)`: an `undefined` id clears nothing. */
    method ClearInterval(id: Option<nat>)
      modifies this
      ensures live == if id.Some? then old(live) - {id.value} else old(live)
      ensures audioTime == old(audioTime) && audioPlaying == old(audioPlaying)
      ensures listeners == old(listeners) && isPlaying == old(isPlaying)
      ensures intervalRef == old(intervalRef) && nextId == old(nextId)
      ensures cleanupPending == old(cleanupPending)
      ensures duration == old(duration) && trackProgress == old(trackProgress)
      ensures audioDuration == old(audioDuration)
    {
      if id.Some? {
        live := live - {id.value};
      }
    }

    /** `startTimer`: the interval in the ref is cleared before a new one is started and
        stored in the ref. */
    method StartTimer()
      modifies this
      ensures var cleared := if old(intervalRef).Some? then old(live) - {old(intervalRef).value}
                             else old(live);
        live == cleared + {old(nextId)}
      ensures intervalRef == Some(old(nextId)) && nextId == old(nextId) + 1
      ensures audioTime == old(audioTime) && audioPlaying == old(audioPlaying)
      ensures listeners == old(listeners) && isPlaying == old(isPlaying)
      ensures cleanupPending == old(cleanupPending)
      ensures duration == old(duration) && trackProgress == old(trackProgress)
      ensures audioDuration == old(audioDuration)
    {
      ClearInterval(intervalRef);
      live := live + {nextId};
      intervalRef := Some(nextId);
      nextId := nextId + 1;
    }

    /** The cleanup the playback effect returns: remove the listener and clear the interval in
        the ref. It runs only if the last run of the effect returned it. */
    method Cleanup()
      requires Valid()
      modifies this
      ensures !cleanupPending && listeners == 0 && live == {}
      ensures audioTime == old(audioTime) && audioPlaying == old(audioPlaying)
      ensures isPlaying == old(isPlaying) && intervalRef == old(intervalRef)
      ensures nextId == old(nextId)
      ensures duration == old(duration) && trackProgress == old(trackProgress)
      ensures audioDuration == old(audioDuration)
    {
      if cleanupPending {
        listeners := listeners - 1;
        ClearInterval(intervalRef);
        cleanupPending := false;
      }
    }

    /** The playback effect's body, run after `isPlaying` changed and the previous cleanup
        ran: without an audio element it returns at once and leaves no cleanup; otherwise it
        registers the listener, plays and starts the timer, or pauses and clears the interval,
        and returns the cleanup. */
    method RunPlaybackEffect()
      requires Valid() && !cleanupPending
      modifies this
      ensures Valid()
      ensures cleanupPending == hasAudio
      ensures hasAudio ==> audioPlaying == isPlaying && listeners == 1
      ensures hasAudio && isPlaying ==>
        intervalRef == Some(old(nextId)) && live == {old(nextId)} && nextId == old(nextId) + 1
      ensures !(hasAudio && isPlaying) ==> intervalRef == old(intervalRef) && nextId == old(nextId)
      ensures !hasAudio ==> audioPlaying == old(audioPlaying) && listeners == 0
      ensures live == {} || (hasAudio && isPlaying)
      ensures audioTime == old(audioTime) && isPlaying == old(isPlaying)
      ensures duration == old(duration) && trackProgress == old(trackProgress)
      ensures audioDuration == old(audioDuration)
    {
      if !hasAudio {
        return;
      }
      listeners := listeners + 1;
      if isPlaying {
        audioPlaying := true;
        StartTimer();
      } else {
        audioPlaying := false;
        ClearInterval(intervalRef);
      }
      cleanupPending := true;
    }

    /** The play/pause button: `setIsPlaying(!isPlaying)`, after which React runs the previous
        effect's cleanup and then the effect again. Playing leaves exactly the fresh interval
        alive, pausing leaves none. */
    method TogglePlay()
      requires Valid()
      modifies this
      ensures Valid()
      ensures isPlaying == !old(isPlaying)
      ensures hasAudio ==> audioPlaying == isPlaying && listeners == 1
      ensures !hasAudio ==> audioPlaying == old(audioPlaying)
      ensures hasAudio && isPlaying ==> live == {old(nextId)} && intervalRef == Some(old(nextId))
      ensures !(hasAudio && isPlaying) ==> live == {}
      ensures audioTime == old(audioTime)
      ensures duration == old(duration) && trackProgress == old(trackProgress)
      ensures audioDuration == old(audioDuration)
    {
      Cleanup();
      isPlaying := !isPlaying;
      RunPlaybackEffect();
    }

    /** The audio element plays on by `elapsed` seconds (its own clamping at the end is not
        modelled). */
    method Play(elapsed: real)
      requires Valid() && elapsed >= 0.0
      modifies this
      ensures Valid()
      ensures audioTime == if old(audioPlaying) then old(audioTime) + elapsed else old(audioTime)
      ensures audioPlaying == old(audioPlaying) && live == old(live)
      ensures listeners == old(listeners) && isPlaying == old(isPlaying)
      ensures intervalRef == old(intervalRef) && nextId == old(nextId)
      ensures cleanupPending == old(cleanupPending)
      ensures duration == old(duration) && trackProgress == old(trackProgress)
      ensures audioDuration == old(audioDuration)
    {
      if audioPlaying {
        audioTime := audioTime + elapsed;
      }
    }

    /** Interval `id` fires: the callback of a live interval copies the audio position into
        `trackProgress`; a cleared one does not fire. */
    method Tick(id: nat)
      requires Valid()
      modifies this
      ensures Valid()
      ensures trackProgress == if id in old(live) then old(audioTime) else old(trackProgress)
      ensures id in old(live) ==> isPlaying
      ensures audioTime == old(audioTime) && audioPlaying == old(audioPlaying)
      ensures live == old(live) && listeners == old(listeners) && isPlaying == old(isPlaying)
      ensures intervalRef == old(intervalRef) && nextId == old(nextId)
      ensures cleanupPending == old(cleanupPending)
      ensures duration == old(duration) && audioDuration == old(audioDuration)
    {
      if id in live {
        trackProgress := audioTime;
      }
    }

    /** The audio element's `loadedmetadata` event: its duration becomes known and, while the
        effect's listener is registered, `setAudioData` copies it into `duration`. */
    method LoadedMetadata(d: real)
      requires Valid()
      modifies this
      ensures Valid()
      ensures audioDuration == d
      ensures duration == if listeners > 0 then d else old(duration)
      ensures audioTime == old(audioTime) && audioPlaying == old(audioPlaying)
      ensures live == old(live) && listeners == old(listeners) && isPlaying == old(isPlaying)
      ensures intervalRef == old(intervalRef) && nextId == old(nextId)
      ensures cleanupPending == old(cleanupPending) && trackProgress == old(trackProgress)
    {
      audioDuration := d;
      if listeners > 0 {
        duration := d;
      }
    }

    /** `handleSeek`: with an audio element, the position becomes the click's `offsetX` over the
        hit element's `offsetWidth`, times the duration, unclamped, and `trackProgress` follows
        it; on an element of width zero the assignment to `currentTime` throws and nothing
        changes. */
    method HandleSeek(offsetX: real, width: real) returns (threw: bool)
      requires Valid()
      modifies this
      ensures Valid()
      ensures threw <==> hasAudio && width == 0.0
      ensures var target := SeekTarget(offsetX, width, old(duration));
        if hasAudio && target.Some? then audioTime == target.value && trackProgress == target.value
        else audioTime == old(audioTime) && trackProgress == old(trackProgress)
      ensures audioPlaying == old(audioPlaying) && live == old(live)
      ensures listeners == old(listeners) && isPlaying == old(isPlaying)
      ensures intervalRef == old(intervalRef) && nextId == old(nextId)
      ensures cleanupPending == old(cleanupPending)
      ensures duration == old(duration) && audioDuration == old(audioDuration)
    {
      threw := false;
      if !hasAudio {
        return;
      }
      var target := SeekTarget(offsetX, width, duration);
      if target.None? {
        threw := true;
        return;
      }
      audioTime := target.value;
      trackProgress := target.value;
    }

    /** `handleSkip`: with an audio element, ten seconds forward or back, kept within
        `[0, duration]`, and `trackProgress` follows the position. */
    method HandleSkip(forward: bool)
      requires Valid()
      modifies this
      ensures Valid()
      ensures hasAudio ==> audioTime == SkipTarget(old(audioTime), old(duration), forward)
      ensures hasAudio ==> trackProgress == audioTime && audioTime >= 0.0
      ensures hasAudio && duration >= 0.0 ==> audioTime <= duration
      ensures !hasAudio ==> audioTime == old(audioTime) && trackProgress == old(trackProgress)
      ensures audioPlaying == old(audioPlaying) && live == old(live)
      ensures listeners == old(listeners) && isPlaying == old(isPlaying)
      ensures intervalRef == old(intervalRef) && nextId == old(nextId)
      ensures cleanupPending == old(cleanupPending)
      ensures duration == old(duration) && audioDuration == old(audioDuration)
    {
      if !hasAudio {
        return;
      }
      audioTime := SkipTarget(audioTime, duration, forward);
      trackProgress := audioTime;
    }

    /** Unmounting runs the pending cleanup: no interval and no listener is left, but nothing
        pauses the audio element, which plays on. */
    method Unmount()
      requires Valid()
      modifies this
      ensures live == {} && listeners == 0 && !cleanupPending
      ensures audioPlaying == old(audioPlaying) && audioTime == old(audioTime)
      ensures isPlaying == old(isPlaying) && intervalRef == old(intervalRef)
      ensures nextId == old(nextId)
      ensures duration == old(duration) && trackProgress == old(trackProgress)
      ensures audioDuration == old(audioDuration)
    {
      Cleanup();
    }
  }
}
