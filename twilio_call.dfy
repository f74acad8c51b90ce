/** twilio_call.py: one outbound call.  It places the call, optionally listens
    for the live transcription webhooks, feeds transcript segments through the
    merger, fires a bus event for each trigger phrase heard, and hangs up.
    Everything the call does to the outside world (Twilio REST requests, bus
    listeners, timers, fired events, the completion callback) is appended to
    an effect log; what the outside world answers is passed in. */
module Calls {
  import opened Base
  import opened Const
  import opened Lists
  import opened Config
  import opened TranscriptionUtils

  /** The keys of the `unsubscribe` dictionary, and the order in which
      `cancel_subscriptions` visits them. */
  const DATA_KEY: string := "data"
  const HANGUP_KEY: string := "hangup"
  const TRANSCRIPT_KEY: string := "transcript"
  const CANCEL_KEYS: seq<string> := [DATA_KEY, HANGUP_KEY, TRANSCRIPT_KEY]

  /** The Twilio call resource; only its sid is used. */
  datatype CallInstance = CallInstance(sid: string)

  /** What a subscription helper returned; `isFunction` is `inspect.isfunction` of it. */
  datatype Handle = Handle(id: nat, isFunction: bool)

  datatype Effect =
    | CreateCall(fromNumber: string, toNumber: string, url: string, statusCallback: Option<string>)
    | Listen(eventType: string)                  // hass.bus.listen
    | StartTranscription(sid: string)            // call_instance.transcriptions.create_async
    | TrackPointInTime(at: int)                  // async_track_point_in_utc_time(hass, hangup, at)
    | Unsubscribe(handle: Handle)                // calling a stored unsubscribe function
    | UpdateCall(sid: string)                    // update_async(method="POST", status="completed")
    | Fire(eventType: string, transcript: string)  // hass.bus.fire(type, {"transcript": ...})
    | Complete                                   // complete_callback(self)

  /** The decoded `TranscriptionData` JSON object. */
  datatype Transcription = Transcription(transcript: Option<string>, confidence: Option<real>)

  /** The fields of a `RECEIVED_DATA` event that the handler reads. */
  datatype TwilioEvent = TwilioEvent(
    callSid: Option<string>,
    callStatus: Option<string>,
    transcriptionData: Option<Transcription>,
    transcriptionText: Option<string>)

  /** The two Python objects compared on line 83: the event's `CallSid` value
      (a str, or None) and the `call_instance` attribute itself. */
  datatype PyObject = PyNone | PyStr(s: string) | PyCallInstance(inst: CallInstance)

  function SidObject(sid: Option<string>): PyObject {
    match sid
    case None => PyNone
    case Some(s) => PyStr(s)
  }

  /** Python `==` on these objects: CallInstance has no `__eq__` accepting a
      str, so a str or None is never equal to it. */
  lemma CallSidNeverMatches(sid: Option<string>, inst: CallInstance)
    ensures SidObject(sid) != PyCallInstance(inst)
  {
  }

  /** The effects of the `_on_call_complete` or timer-driven hangup: the
      pending hangup timer is cancelled when it is a function, and the call is
      ended when `call_instance` is set (otherwise the AttributeError is logged). */
  function HangupEffects(unsubscribe: map<string, Handle>, callInstance: Option<CallInstance>): seq<Effect> {
    (if HANGUP_KEY in unsubscribe && unsubscribe[HANGUP_KEY].isFunction
     then [Unsubscribe(unsubscribe[HANGUP_KEY])] else [])
    + (if callInstance.Some? then [UpdateCall(callInstance.value.sid)] else [])
  }

  /** The unsubscribe calls of the loop in `cancel_subscriptions` over `keys`. */
  function CancelEffects(unsubscribe: map<string, Handle>, keys: seq<string>): seq<Effect>
    decreases |keys|
  {
    if keys == [] then []
    else
      var k := keys[|keys| - 1];
      CancelEffects(unsubscribe, keys[..|keys| - 1])
      + (if k in unsubscribe && unsubscribe[k].isFunction then [Unsubscribe(unsubscribe[k])] else [])
  }

  /** The loop releases exactly the function handles stored under the keys it visits. */
  lemma {:induction false} CancelEffectsReleases(unsubscribe: map<string, Handle>, keys: seq<string>, h: Handle)
    ensures Unsubscribe(h) in CancelEffects(unsubscribe, keys) <==>
              h.isFunction && exists i :: 0 <= i < |keys| && keys[i] in unsubscribe && unsubscribe[keys[i]] == h
    ensures forall e :: e in CancelEffects(unsubscribe, keys) ==> e.Unsubscribe?
    decreases |keys|
  {
    if keys != [] {
      var init := keys[..|keys| - 1];
      CancelEffectsReleases(unsubscribe, init, h);
      forall i | 0 <= i < |init| ensures init[i] == keys[i] { }
    }
  }

  /** `cancel_subscriptions` runs `hangup` and then the loop: together they call
      every stored unsubscribe function under the three keys, and nothing else. */
  lemma CancelReleasesAll(unsubscribe: map<string, Handle>, callInstance: Option<CallInstance>, h: Handle)
    ensures var effs := HangupEffects(unsubscribe, callInstance) + CancelEffects(unsubscribe - {HANGUP_KEY}, CANCEL_KEYS);
            Unsubscribe(h) in effs <==>
              h.isFunction && exists i :: 0 <= i < |CANCEL_KEYS| && CANCEL_KEYS[i] in unsubscribe && unsubscribe[CANCEL_KEYS[i]] == h
  {
    CancelEffectsReleases(unsubscribe - {HANGUP_KEY}, CANCEL_KEYS, h);
    var effs := HangupEffects(unsubscribe, callInstance) + CancelEffects(unsubscribe - {HANGUP_KEY}, CANCEL_KEYS);
    if h.isFunction && HANGUP_KEY in unsubscribe && unsubscribe[HANGUP_KEY] == h {
      assert effs[0] == Unsubscribe(h);
    }
    if h.isFunction && exists i :: 0 <= i < 3 && CANCEL_KEYS[i] in unsubscribe && unsubscribe[CANCEL_KEYS[i]] == h {
      var i :| 0 <= i < 3 && CANCEL_KEYS[i] in unsubscribe && unsubscribe[CANCEL_KEYS[i]] == h;
      if i != 1 {
        assert CANCEL_KEYS[i] in unsubscribe - {HANGUP_KEY};
      }
    }
  }

  /** A second hangup does not cancel the timer again: the first one popped it. */
  lemma HangupPopsTimer(unsubscribe: map<string, Handle>, callInstance: Option<CallInstance>)
    ensures HangupEffects(unsubscribe - {HANGUP_KEY}, callInstance)
            == (if callInstance.Some? then [UpdateCall(callInstance.value.sid)] else [])
  {
  }

  /** `TwilioCall`. */
  class TwilioCall {
    const processLive: bool
    /** `hangup_after`, in microseconds. */
    const hangupAfter: Option<int>
    const merger: TranscriptionMerger
    const matcher: PhraseMatcher
    var callInstance: Option<CallInstance>   // None until `initiate_call` assigns it
    var transcription: Option<string>
    var unsubscribe: map<string, Handle>
    var effects: seq<Effect>
    /** The trigger list as configured, and the entries fired so far. */
    ghost const configured: seq<EventPhrases>
    ghost var fired: seq<EventPhrases>

    /** The merger keeps every segment, and every configured trigger is either
        still waiting or has fired: one firing per list entry at most. */
    ghost predicate Valid()
      reads this, merger, matcher.eventPhrases
    {
      && merger.Valid()
      && multiset(matcher.eventPhrases.items) + multiset(fired) == multiset(configured)
      && forall i, j :: 0 <= i < j < |configured| ==> configured[i] != configured[j]
    }

    constructor (processLive: bool, hangupAfter: Option<int>, merger: TranscriptionMerger, matcher: PhraseMatcher)
      requires merger.Valid()
      requires forall i, j :: 0 <= i < j < |matcher.eventPhrases.items| ==>
                 matcher.eventPhrases.items[i] != matcher.eventPhrases.items[j]
      ensures Valid()
      ensures this.processLive == processLive && this.hangupAfter == hangupAfter
      ensures this.merger == merger && this.matcher == matcher
      ensures callInstance == None && transcription == None && unsubscribe == map[] && effects == []
      ensures configured == matcher.eventPhrases.items && fired == []
    {
      this.processLive := processLive;
      this.hangupAfter := hangupAfter;
      this.merger := merger;
      this.matcher := matcher;
      callInstance := None;
      transcription := None;
      unsubscribe := map[];
      effects := [];
      configured := matcher.eventPhrases.items;
      fired := [];
    }

    /** `TwilioCall(hass, complete_callback, event_phrases, client, process_live,
        hangup_after)`: a merger with the default interval and threshold, and a
        matcher with the default threshold over the parsed trigger list.  A
        trigger dict that does not parse raises. */
    static method Create(entries: seq<map<string, Value>>, processLive: bool, hangupAfter: Option<int>,
                         now: int, sim: Similarity, re: RegexEngine)
      returns (r: Result<TwilioCall>)
      ensures r.Err? ==> exists i :: 0 <= i < |entries| && ParseConfig(entries[i], re) == Err(r.error)
                            && forall j :: 0 <= j < i ==> ParseConfig(entries[j], re).Ok?
      ensures r.Ok? ==> var call := r.value;
        && fresh(call) && fresh(call.merger) && fresh(call.matcher) && fresh(call.matcher.eventPhrases)
        && call.Valid()
        && call.processLive == processLive && call.hangupAfter == hangupAfter
        && call.callInstance == None && call.transcription == None
        && call.unsubscribe == map[] && call.effects == [] && call.fired == []
        && call.merger.segments == [] && call.merger.lastTime == now
        && call.merger.flushInterval == DEFAULT_FLUSH_INTERVAL && call.merger.threshold == DEFAULT_OVERLAP_THRESHOLD
        && call.matcher.threshold == DEFAULT_MATCH_THRESHOLD
        && call.merger.sim == sim && call.matcher.sim == sim && call.matcher.re == re
        && |call.matcher.eventPhrases.items| == |entries|
        && forall i :: 0 <= i < |entries| ==>
             && ParseConfig(entries[i], re).Ok?
             && call.matcher.eventPhrases.items[i].event == ParseConfig(entries[i], re).value.0
             && call.matcher.eventPhrases.items[i].phrases == ParseConfig(entries[i], re).value.1
    {
      var merger := new TranscriptionMerger(now, DEFAULT_FLUSH_INTERVAL, DEFAULT_OVERLAP_THRESHOLD, sim);
      var asEntries := seq(|entries|, i requires 0 <= i < |entries| => Mapping(entries[i]));
      assert forall i :: 0 <= i < |entries| ==> asEntries[i] == Mapping(entries[i]);
      var list := EventPhrasesList.Build(asEntries, re);
      if list.Err? {
        return Err(list.error);
      }
      var matcher := new PhraseMatcher(list.value, DEFAULT_MATCH_THRESHOLD, sim, re);
      var call := new TwilioCall(processLive, hangupAfter, merger, matcher);
      r := Ok(call);
    }

    /** `initiate_call`: creates the call; when processing live, stores the
        bus listener under "data" and starts the transcription; when a hangup
        delay is set, stores the timer under "hangup".  `created`,
        `transcribed`, `listener` and `timer` are what Twilio and Home
        Assistant answer; a failed request raises out of the method. */
    method InitiateCall(fromNumber: string, toNumber: string, url: string, webhookUrl: Option<string>,
                        now: int, created: Result<CallInstance>, transcribed: Result<()>,
                        listener: Handle, timer: Handle)
      returns (r: Result<string>)
      requires Valid()
      modifies this
      ensures Valid()
      ensures fired == old(fired)
      ensures created.Err? ==>
                && r == Err(created.error) && callInstance == old(callInstance)
                && transcription == old(transcription) && unsubscribe == old(unsubscribe)
                && effects == old(effects) + [CreateCall(fromNumber, toNumber, url, webhookUrl)]
      ensures created.Ok? ==> callInstance == Some(created.value)
      ensures created.Ok? && !processLive ==> transcription == old(transcription)
      ensures created.Ok? && processLive ==> transcription == Some("")
      ensures created.Ok? && processLive && transcribed.Err? ==>
                && r == Err(transcribed.error)
                && unsubscribe == old(unsubscribe)[DATA_KEY := listener]
                && effects == old(effects) + [CreateCall(fromNumber, toNumber, url, webhookUrl),
                                             Listen(RECEIVED_DATA), StartTranscription(created.value.sid)]
      ensures created.Ok? && (!processLive || transcribed.Ok?) ==>
                && r == Ok(created.value.sid)
                && unsubscribe == LiveUnsubscribe(old(unsubscribe), listener, timer)
                && effects == old(effects) + [CreateCall(fromNumber, toNumber, url, webhookUrl)]
                              + (if processLive then [Listen(RECEIVED_DATA), StartTranscription(created.value.sid)] else [])
                              + (if hangupAfter.Some? then [TrackPointInTime(now + hangupAfter.value)] else [])
    {
      effects := effects + [CreateCall(fromNumber, toNumber, url, webhookUrl)];
      if created.Err? {
        return Err(created.error);
      }
      var inst := created.value;
      callInstance := Some(inst);
      if processLive {
        transcription := Some("");
        unsubscribe := unsubscribe[DATA_KEY := listener];
        effects := effects + [Listen(RECEIVED_DATA), StartTranscription(inst.sid)];
        if transcribed.Err? {
          return Err(transcribed.error);
        }
      }
      if hangupAfter.Some? {
        unsubscribe := unsubscribe[HANGUP_KEY := timer];
        effects := effects + [TrackPointInTime(now + hangupAfter.value)];
      }
      r := Ok(inst.sid);
    }

    /** The `unsubscribe` dictionary after a successful `initiate_call`. */
    function LiveUnsubscribe(before: map<string, Handle>, listener: Handle, timer: Handle): map<string, Handle> {
      var withData := if processLive then before[DATA_KEY := listener] else before;
      if hangupAfter.Some? then withData[HANGUP_KEY := timer] else withData
    }

    /** On a new session, `initiate_call` registers "data" exactly when
        processing live and "hangup" exactly when a hangup delay is set, each
        with the handle its helper returned. */
    lemma InitiateRegisters(listener: Handle, timer: Handle)
      ensures var u := LiveUnsubscribe(map[], listener, timer);
              && (DATA_KEY in u <==> processLive)
              && (HANGUP_KEY in u <==> hangupAfter.Some?)
              && u.Keys <= {DATA_KEY, HANGUP_KEY}
              && (processLive ==> u[DATA_KEY] == listener)
              && (hangupAfter.Some? ==> u[HANGUP_KEY] == timer)
    {
    }

    /** `on_twilio_data_received` as written: line 83 compares the event's
        CallSid with the CallInstance object, which is never equal, so every
        event is dropped there (or, before `initiate_call`, reading the unset
        attribute raises). */
    method OnTwilioDataReceivedAsWritten(event: TwilioEvent) returns (r: Result<()>)
      ensures r == (if processLive && callInstance.None? then Err(AttributeError("call_instance")) else Ok(()))
    {
      if !processLive {
        return Ok(());
      }
      if callInstance.None? {
        return Err(AttributeError("call_instance"));
      }
      r := Ok(());
      CallSidNeverMatches(event.callSid, callInstance.value);
      if SidObject(event.callSid) == PyCallInstance(callInstance.value) {
        assert false;
      }
    }

    /** `on_twilio_data_received` as intended: an event of this call is handled;
        a "completed" status runs `_on_call_complete` to the end; a transcript
        goes to the merger; `TranscriptionText` is ignored. */
    method OnTwilioDataReceived(event: TwilioEvent, now: int) returns (r: Result<()>)
      requires Valid()
      modifies this, merger, matcher.eventPhrases
      ensures Valid()
      ensures !processLive || old(callInstance).None? || event.callSid != Some(old(callInstance).value.sid) ==>
                && r == (if processLive && old(callInstance).None? then Err(AttributeError("call_instance")) else Ok(()))
                && unchanged(this, merger, matcher.eventPhrases)
      ensures processLive && old(callInstance).Some? && event.callSid == Some(old(callInstance).value.sid) ==>
                && old(effects) + (if event.callStatus == Some("completed")
                                   then HangupEffects(old(unsubscribe), old(callInstance)) + [Complete] else [])
                   <= effects
                && unsubscribe == (if event.callStatus == Some("completed") then old(unsubscribe) - {HANGUP_KEY}
                                   else old(unsubscribe))
                && (event.transcriptionData.None? || event.transcriptionData.value.transcript.None? ==>
                      r == Ok(()) && unchanged(merger, matcher.eventPhrases))
                && (event.transcriptionData.Some? && event.transcriptionData.value.transcript.Some? ==>
                      merger.received == old(merger.received) + [event.transcriptionData.value.transcript.value])
    {
      if !processLive {
        return Ok(());
      }
      if callInstance.None? {
        return Err(AttributeError("call_instance"));
      }
      if event.callSid != Some(callInstance.value.sid) {
        return Ok(());
      }
      ghost var before := effects;
      if event.callStatus == Some("completed") {
        OnCallComplete();
      }
      ghost var completed := effects;
      assert before + (if event.callStatus == Some("completed")
                       then HangupEffects(old(unsubscribe), old(callInstance)) + [Complete] else []) == completed;
      r := Ok(());
      if event.transcriptionData.Some? {
        r := OnTranscriptionData(event.transcriptionData.value.transcript, now);
      }
      assert completed <= effects;
    }

    /** `_on_call_complete`: hang up, then tell the owner. */
    method OnCallComplete()
      requires Valid()
      modifies this
      ensures Valid()
      ensures unsubscribe == old(unsubscribe) - {HANGUP_KEY}
      ensures effects == old(effects) + HangupEffects(old(unsubscribe), old(callInstance)) + [Complete]
      ensures callInstance == old(callInstance) && transcription == old(transcription) && fired == old(fired)
    {
      Hangup();
      effects := effects + [Complete];
    }

    /** `_on_transcription_data`: a missing transcript is ignored; otherwise it
        is added to the merger, whose flush, if due, runs `_process_transcript`
        on the merged text.  An exception from merging escapes. */
    method OnTranscriptionData(transcript: Option<string>, now: int) returns (r: Result<()>)
      requires Valid()
      modifies this, merger, matcher.eventPhrases
      ensures Valid()
      ensures callInstance == old(callInstance) && transcription == old(transcription)
      ensures unsubscribe == old(unsubscribe) && old(effects) <= effects
      ensures transcript.None? ==> r == Ok(()) && unchanged(this, merger, matcher.eventPhrases)
      ensures transcript.Some? ==> merger.received == old(merger.received) + [transcript.value]
      ensures transcript.Some? && now - old(merger.lastTime) < merger.flushInterval ==>
                && r == Ok(()) && merger.segments == old(merger.segments) + [transcript.value]
                && merger.lastTime == old(merger.lastTime)
                && unchanged(this, matcher.eventPhrases)
      ensures transcript.Some? && now - old(merger.lastTime) >= merger.flushInterval ==>
                && merger.segments == [] && merger.lastTime == now
                && var flushed := FlushResult(old(merger.segments) + [transcript.value], merger.sim, merger.threshold);
                   && (flushed.Raised? ==> r == Err(flushed.error) && unchanged(this, matcher.eventPhrases))
                   && (!flushed.Raised? ==> r == Ok(()))
                   && (flushed.NoCallback? ==> unchanged(this, matcher.eventPhrases))
                   && (flushed.Callback? && old(matcher.MatchIndex(flushed.text)).None? ==>
                         unchanged(this) && matcher.eventPhrases.items == old(matcher.eventPhrases.items))
                   && (flushed.Callback? && old(matcher.MatchIndex(flushed.text)).Some? ==>
                         var k := old(matcher.MatchIndex(flushed.text)).value;
                         && matcher.eventPhrases.items == RemoveAt(old(matcher.eventPhrases.items), k)
                         && effects == old(effects) + [Fire(old(matcher.eventPhrases.items[k].event), flushed.text),
                                                      Fire(DOMAIN, flushed.text)]
                         && fired == old(fired) + [old(matcher.eventPhrases.items[k])])
    {
      if transcript.None? {
        return Ok(());
      }
      var out := merger.AddSegment(transcript.value, now);
      match out {
        case NoCallback =>
          r := Ok(());
        case Callback(text) =>
          assert matcher.MatchIndex(text) == old(matcher.MatchIndex(text));
          ProcessTranscript(text);
          r := Ok(());
        case Raised(e) =>
          r := Err(e);
      }
    }

    /** `_process_transcript`: when some trigger matches, the first matching
        entry is removed from the list and its event is fired, followed by the
        integration's own DOMAIN event, both carrying the transcript. */
    method ProcessTranscript(transcript: string)
      requires Valid()
      modifies this, matcher.eventPhrases
      ensures Valid()
      ensures callInstance == old(callInstance) && transcription == old(transcription)
      ensures unsubscribe == old(unsubscribe)
      ensures old(matcher.MatchIndex(transcript)).None? ==>
                unchanged(this) && matcher.eventPhrases.items == old(matcher.eventPhrases.items)
      ensures old(matcher.MatchIndex(transcript)).Some? ==>
                var k := old(matcher.MatchIndex(transcript)).value;
                && matcher.eventPhrases.items == RemoveAt(old(matcher.eventPhrases.items), k)
                && effects == old(effects) + [Fire(old(matcher.eventPhrases.items[k].event), transcript),
                                             Fire(DOMAIN, transcript)]
                && fired == old(fired) + [old(matcher.eventPhrases.items[k])]
    {
      var event := matcher.PhraseMatchEvent(transcript);
      if event.None? {
        return;
      }
      var entry := event.value;
      ghost var k := matcher.MatchIndex(transcript).value;
      ghost var before := matcher.eventPhrases.items;
      matcher.RemovesMatched(transcript, k);
      var removed := matcher.eventPhrases.Remove(entry);
      assert removed.Ok?;
      fired := fired + [entry];
      effects := effects + [Fire(entry.event, transcript), Fire(DOMAIN, transcript)];
    }

    /** `hangup`: pops the timer and calls it when it is a function, then asks
        Twilio to end the call; any exception is logged and swallowed. */
    method Hangup()
      requires Valid()
      modifies this
      ensures Valid()
      ensures unsubscribe == old(unsubscribe) - {HANGUP_KEY}
      ensures effects == old(effects) + HangupEffects(old(unsubscribe), old(callInstance))
      ensures callInstance == old(callInstance) && transcription == old(transcription) && fired == old(fired)
    {
      if HANGUP_KEY in unsubscribe {
        var unsub := unsubscribe[HANGUP_KEY];
        unsubscribe := unsubscribe - {HANGUP_KEY};
        if unsub.isFunction {
          effects := effects + [Unsubscribe(unsub)];
        }
      }
      if callInstance.Some? {
        effects := effects + [UpdateCall(callInstance.value.sid)];
      }
    }

    /** `cancel_subscriptions`: hang up, then call each stored unsubscribe
        function among "data", "hangup" and "transcript".  The dictionary
        keeps its entries. */
    method CancelSubscriptions()
      requires Valid()
      modifies this
      ensures Valid()
      ensures unsubscribe == old(unsubscribe) - {HANGUP_KEY}
      ensures effects == old(effects) + HangupEffects(old(unsubscribe), old(callInstance))
                         + CancelEffects(old(unsubscribe) - {HANGUP_KEY}, CANCEL_KEYS)
      ensures callInstance == old(callInstance) && transcription == old(transcription) && fired == old(fired)
    {
      Hangup();
      ghost var base := effects;
      for i := 0 to |CANCEL_KEYS|
        invariant unsubscribe == old(unsubscribe) - {HANGUP_KEY}
        invariant callInstance == old(callInstance) && transcription == old(transcription) && fired == old(fired)
        invariant effects == base + CancelEffects(unsubscribe, CANCEL_KEYS[..i])
      {
        assert CANCEL_KEYS[..i + 1][..i] == CANCEL_KEYS[..i];
        var key := CANCEL_KEYS[i];
        if key in unsubscribe && unsubscribe[key].isFunction {
          effects := effects + [Unsubscribe(unsubscribe[key])];
        }
      }
      assert CANCEL_KEYS[..|CANCEL_KEYS|] == CANCEL_KEYS;
    }
  }

  /** Single fire: every trigger fires at most once, and one that has fired
      is no longer in the list, so no later match can return it. */
  lemma FiredNeverReturned(call: TwilioCall, transcript: string)
    requires call.Valid()
    ensures forall e :: multiset(call.fired)[e] <= 1
    ensures forall e :: e in call.fired ==> e !in call.matcher.eventPhrases.items
    ensures call.matcher.PhraseMatchEvent(transcript).Some? ==>
              call.matcher.PhraseMatchEvent(transcript).value !in call.fired
  {
    var items, fired, configured := call.matcher.eventPhrases.items, call.fired, call.configured;
    DistinctCountsOne(configured);
    forall e | e in fired ensures e !in items {
      assert multiset(configured)[e] == multiset(items)[e] + multiset(fired)[e];
    }
    forall e ensures multiset(fired)[e] <= 1 {
      assert multiset(configured)[e] == multiset(items)[e] + multiset(fired)[e];
    }
  }
}
