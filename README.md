# twilio_call_live, modelled in Dafny

`twilio_call_live` is a Home Assistant integration that places an outbound
Twilio call, optionally follows the call's live speech-to-text transcription,
and fires a bus event whenever the transcript matches one of the configured
trigger phrases. This project models the integration's core:

- **Transcript merging** (`TranscriptionUtils.TranscriptionMerger`). Partial
  transcription segments are buffered. At most once per flush interval they
  are folded into one text, stitching overlapping segments at the last word
  of the text so far. The merged text is handed to a callback.
- **Phrase matching** (`TranscriptionUtils.PhraseMatcher`, `Config`). The
  matcher returns the first trigger in list order that has a phrase similar
  to the transcript. `Config` also holds the trigger records
  (`EventPhrases`, `EventPhrasesList`) with their in-place edits,
  serialisation and `is_match`, plus the options wizard's `SystemValues`.
- **The call session** (`Calls.TwilioCall`). It places the call, registers
  the bus listener and the hangup timer in the `unsubscribe` dictionary,
  filters webhook events, and feeds transcripts to the merger. On a match it
  removes the trigger and fires two events. It also hangs up and cancels
  subscriptions.
- **The configuration step** (`ConfigFlow`). It normalises and checks the
  caller number, and `_pop_sys_keys` splits the wizard's bookkeeping keys out
  of the user input.

Python lists and strings become `seq`s. Objects whose fields the code
updates in place become classes (`EventPhrases`, `EventPhrasesList`, the
dictionary `Dict`, `TranscriptionMerger`, `TwilioCall`). Python exceptions
become `Result` values carrying a `Base.Error`. The collaborators are
parameters:
- the Jaro–Winkler scorer is any function into [0, 1] (`Base.Similarity`);
- the regular-expression engine is a `compiles`/`search` pair
  (`Base.RegexEngine`);
- the clock is a `now` argument in microseconds;
- whatever Twilio or Home Assistant answers is an argument;
- everything the session does to the outside world is appended to
  `TwilioCall.effects`.

Behaviour of the code worth knowing:
- The code keeps no call state machine and does not hang up on a match.
  `_process_transcript` only removes the trigger and fires the trigger's
  event and the `twilio_call_live` event.
- Merging can raise. `seg1.split()[-1]` raises IndexError when the text so
  far is only whitespace and the similarity exceeds the threshold.
- `_on_call_complete` only hangs up and calls the completion callback. The
  "data" listener stays registered. `cancel_subscriptions` calls the stored
  functions but leaves them in the dictionary.
- When starting the transcription fails, the call was already placed and the
  "data" listener is already stored.
- A compiled phrase in `PhraseMatcher.are_similar` is searched in the raw
  transcript. Only `EventPhrases.is_match` strips characters first.

## Model

| member | source | states |
|---|---|---|
| Base.PyIndex | custom_components/twilio_call_live/config.py:44-46 | Python list indexing: an index is valid exactly when -n <= i < n, and a negative index counts from the end |
| PyText.LastWord | custom_components/twilio_call_live/transcription_utils.py:62 | `s.split()[-1]` fails exactly when `s` is all whitespace; otherwise the result is a non-empty, space-free word preceded by whitespace or the start and followed only by whitespace |
| PyText.LastWordAfterSpace | custom_components/twilio_call_live/transcription_utils.py:62 | a string ending in a word after whitespace (or nothing) has that word as its last word |
| PyText.Find | custom_components/twilio_call_live/transcription_utils.py:62 | `find` is -1 exactly when the needle occurs nowhere; otherwise the needle occurs there and at no lower index |
| PyText.SplitJoin | custom_components/twilio_call_live/config.py:35 | splitting a "\|"-join whose parts contain no "\|" gives the parts back |
| PyText.Keep | custom_components/twilio_call_live/config.py:50 | a negated-class `re.sub` returns only accepted characters, keeps every accepted one, never lengthens the text, and keeps a single character exactly when it is accepted |
| PyText.KeepConcat | custom_components/twilio_call_live/config.py:50 | filtering a concatenation filters each part and concatenates the results; with the one-character case, accepted characters survive in their original order |
| PyText.KeepIdempotent | custom_components/twilio_call_live/config.py:50 | filtering twice equals filtering once |
| PyText.KeepDropsOnlyRejected | custom_components/twilio_call_live/config.py:50 | the filter is the identity exactly when every character is accepted |
| Lists.Filter | custom_components/twilio_call_live/config.py:74-81 | the comprehension keeps exactly the elements that pass, in their original order |
| Lists.FilterConcat | custom_components/twilio_call_live/config.py:74-81 | filtering a concatenation filters each part and concatenates the results, so survivors keep their relative order |
| Lists.FilterAllKept | custom_components/twilio_call_live/config.py:74-81 | a filter that passes every element returns the list unchanged |
| Lists.RemoveFirst | custom_components/twilio_call_live/config.py:72 | `list.remove(x)` raises ValueError exactly when `x` is absent; otherwise it drops the first equal element |
| Lists.RemoveAt | custom_components/twilio_call_live/config.py:72 | removing one position shrinks the list by one, shifts the tail and removes exactly one copy from the multiset |
| Lists.RemoveFirstAt | custom_components/twilio_call_live/config.py:72 | removing the first copy of `s[k]` removes position `k` when no earlier element equals it |
| Config.CleanText | custom_components/twilio_call_live/config.py:14 | the cleaned text holds only characters of `[a-zA-Z0-9 -]` and keeps every such character of the input; it equals the input exactly when the input has no other character |
| Config.CleanTextConcat | custom_components/twilio_call_live/config.py:50 | cleaning a concatenation cleans each part, so kept characters stay in order |
| Config.CompileAll | custom_components/twilio_call_live/config.py:29 | the list compiles exactly when every pattern compiles; the result keeps count and order; an error names an offending pattern |
| Config.ParseConfig | custom_components/twilio_call_live/config.py:24-30 | a missing "event" gives KeyError("event"), a non-string event TypeError, then a missing "phrases" KeyError("phrases"), a None or int phrases value TypeError; it succeeds exactly when every phrase compiles (each character, for a string value), and then holds the event and one case-insensitive pattern per phrase, in order |
| Config.KeptByTextRemovalIff | custom_components/twilio_call_live/config.py:74-81 | the filter condition drops exactly the raw strings equal to the argument, and every compiled pattern survives |
| Config.TextRemovalKeepsPatterns | custom_components/twilio_call_live/config.py:74-81 | removing by text leaves the subsequence of compiled patterns unchanged |
| Config.EventPhrases.FromConfig | custom_components/twilio_call_live/config.py:24-30 | a new object with the parsed event and phrases, or the parse error |
| Config.EventPhrases.Patterns | custom_components/twilio_call_live/config.py:37-40 | one pattern text per phrase, same length and order |
| Config.EventPhrases.PhrasesString | custom_components/twilio_call_live/config.py:32-35 | `phrases_string` joins the patterns with "\|": one phrase gives its pattern, and the first pattern always leads; with Config.PhrasesStringSplits, splitting on "\|" gives the patterns back |
| Config.EventPhrases.GetPattern | custom_components/twilio_call_live/config.py:42-46 | IndexError exactly outside -n..n-1; otherwise `patterns[i]`, or `patterns[n+i]` for a negative index |
| Config.EventPhrases.IsMatch | custom_components/twilio_call_live/config.py:48-57 | true iff some phrase hits the cleaned text: a pattern by search, a raw string as a substring |
| Config.EventPhrases.AddPhrase | custom_components/twilio_call_live/config.py:59-62 | appends the compiled phrase at the end and returns self; a bad pattern raises and changes nothing |
| Config.EventPhrases.SetPhrase | custom_components/twilio_call_live/config.py:64-67 | a bad pattern raises first, then a bad index; otherwise only the indexed entry changes |
| Config.EventPhrases.RemovePhrase | custom_components/twilio_call_live/config.py:69-82 | by index: removes the first phrase equal to `phrases[i]`; by text: the filter; the event never changes |
| Config.EventPhrases.ToDict | custom_components/twilio_call_live/config.py:84-92 | exactly the keys "event" and "phrases" |
| Config.PhrasesStringSplits | custom_components/twilio_call_live/config.py:32-35 | `phrases_string` splits back into `patterns` when no pattern contains "\|" |
| Config.ToDictRoundTrip | custom_components/twilio_call_live/config.py:84-92 | `from_config(to_dict(e))` has e's event, and its phrases are e's patterns compiled, whenever they compile |
| Config.EventPhrasesList.Build | custom_components/twilio_call_live/config.py:98-116 | same length and order; dicts are parsed into fresh, distinct objects; objects pass through; the first failing dict's error is raised |
| Config.EventPhrasesList.GetFrom | custom_components/twilio_call_live/config.py:120-123 | the first index from `i` whose entry matches, or none after `i` matches |
| Config.EventPhrasesList.Get | custom_components/twilio_call_live/config.py:118-123 | the event of the first matching entry; None iff no entry matches |
| Config.EventPhrasesList.IndexOfValueFrom | custom_components/twilio_call_live/twilio_call.py:127 | the first position equal as a dataclass (same event, same phrases) |
| Config.EventPhrasesList.Remove | custom_components/twilio_call_live/twilio_call.py:127 | `list.remove(e)` drops the first dataclass-equal entry, or raises ValueError and changes nothing |
| Config.Dict.Pop | custom_components/twilio_call_live/config_flow.py:100-103 | `pop(key, None)` returns the value or None, and the key is gone |
| Config.SystemValues.ToDict | custom_components/twilio_call_live/config.py:134-150 | None iff all five fields are None; otherwise `sys_event_index` holds the phrase index, there is no `sys_phrase_index` key unless the user input has one, and user-input entries win |
| Config.SystemValues.ToDictIntended | custom_components/twilio_call_live/config.py:134-150 | the corrected conversion: all four bookkeeping keys with their own fields, user-input entries winning |
| Config.EventIndexLost | custom_components/twilio_call_live/config.py:145-148 | as written, the event index survives only when it equals the phrase index |
| TranscriptionUtils.MergeTwoSegments | custom_components/twilio_call_live/transcription_utils.py:58-65 | raises IndexError exactly when the segments are similar and `seg1` has no word; every result starts with `seg1` |
| TranscriptionUtils.MergeTwoJoins | custom_components/twilio_call_live/transcription_utils.py:60-65 | below the threshold, or when the last word is not in `seg2`, the result is `seg1 + " " + seg2` |
| TranscriptionUtils.MergeTwoStitches | custom_components/twilio_call_live/transcription_utils.py:61-64 | above the threshold with the last word first found at `i`, the result is `seg1 + seg2[i + len(tok):]` |
| TranscriptionUtils.OverlapExample | custom_components/twilio_call_live/transcription_utils.py:58-65 | "the quick brown" and "brown fox jumps" merge to "the quick brown fox jumps" when similar |
| TranscriptionUtils.MergeAll | custom_components/twilio_call_live/transcription_utils.py:48-56 | "" for no segments, the segment itself for one; a successful merge starts with the first segment |
| TranscriptionUtils.MergeAllIsLeftFold | custom_components/twilio_call_live/transcription_utils.py:53-56 | the merge equals the front-to-back left fold of `merge_two_segments` starting from the first segment |
| TranscriptionUtils.MergeAllErrorStays | custom_components/twilio_call_live/transcription_utils.py:54-55 | once merging a prefix raises, merging the whole list raises the same exception |
| TranscriptionUtils.TranscriptionMerger.constructor | custom_components/twilio_call_live/transcription_utils.py:14-25 | empty buffer, last flush time now, the given interval, threshold and scorer |
| TranscriptionUtils.TranscriptionMerger.MergeSegments | custom_components/twilio_call_live/transcription_utils.py:48-56 | the loop computes exactly `MergeAll` of its argument |
| TranscriptionUtils.TranscriptionMerger.FlushBuffer | custom_components/twilio_call_live/transcription_utils.py:38-46 | always stamps the time; no callback on an empty buffer; otherwise the buffer is emptied and one callback gets the merge of all buffered segments; each added segment is taken by exactly one flush, and when the merge raises the taken segments are discarded |
| TranscriptionUtils.TranscriptionMerger.AddSegment | custom_components/twilio_call_live/transcription_utils.py:27-36 | always appends; before the interval only the buffer grows; at or after it, a flush of everything including the new segment |
| TranscriptionUtils.PhraseMatcher.AreSimilar | custom_components/twilio_call_live/transcription_utils.py:83-89 | a compiled phrase is searched in the raw (uncleaned) transcript; a string phrase is similar only when its score is strictly above the threshold, so a threshold of 1 or more never matches it and a negative one always does; TranscriptionUtils.PhraseMatcher.EventMatches lifts it to a trigger |
| TranscriptionUtils.PhraseMatcher.EventMatches | custom_components/twilio_call_live/transcription_utils.py:78-80 | an event matches iff some phrase is similar: a pattern found in the raw transcript, or a string scoring strictly above the threshold |
| TranscriptionUtils.PhraseMatcher.MatchFrom | custom_components/twilio_call_live/transcription_utils.py:77-81 | the first matching event from `i` in list order, or none after `i` matches |
| TranscriptionUtils.PhraseMatcher.PhraseMatchEvent | custom_components/twilio_call_live/transcription_utils.py:75-81 | None iff no event matches; otherwise a listed event that matches, with no earlier event matching |
| TranscriptionUtils.PhraseMatcher.RemovesMatched | custom_components/twilio_call_live/twilio_call.py:127 | the matched entry is the first dataclass-equal one, so `remove` drops exactly the matched position |
| Calls.CallSidNeverMatches | custom_components/twilio_call_live/twilio_call.py:83 | a str or None never equals the CallInstance object |
| Calls.CancelEffectsReleases | custom_components/twilio_call_live/twilio_call.py:146-150 | the loop calls exactly the stored function handles under the keys it visits, and nothing else |
| Calls.CancelReleasesAll | custom_components/twilio_call_live/twilio_call.py:143-150 | hangup followed by the loop calls a handle iff it is a function stored under "data", "hangup" or "transcript" |
| Calls.HangupPopsTimer | custom_components/twilio_call_live/twilio_call.py:135-137 | a second hangup no longer cancels the timer; it only repeats the update request |
| Calls.TwilioCall.Create | custom_components/twilio_call_live/twilio_call.py:27-46 | a fresh session with no call, no subscriptions and no effects; a fresh merger with the defaults; a fresh trigger list parsed from the dicts in order, or the first parse error |
| Calls.TwilioCall.InitiateCall | custom_components/twilio_call_live/twilio_call.py:48-77 | records the call; when live, sets the transcription to "", stores "data" and starts transcription; stores "hangup" when a delay is set; returns the sid; a failed request raises with the state reached so far; the session invariant (merger history, one firing per trigger) is kept |
| Calls.TwilioCall.InitiateRegisters | custom_components/twilio_call_live/twilio_call.py:56-76 | on a new session "data" is registered iff live and "hangup" iff a delay is set, and no other key |
| Calls.TwilioCall.OnTwilioDataReceivedAsWritten | custom_components/twilio_call_live/twilio_call.py:79-84 | as written, every event is dropped (or AttributeError before a call exists) |
| Calls.TwilioCall.OnTwilioDataReceived | custom_components/twilio_call_live/twilio_call.py:79-96 | events of other calls change nothing; for this call, a "completed" status hangs up and completes, and a transcript is added to the merger |
| Calls.TwilioCall.OnCallComplete | custom_components/twilio_call_live/twilio_call.py:98-101 | the hangup effects, then one completion callback; the session invariant (merger history, one firing per trigger) is kept |
| Calls.TwilioCall.OnTranscriptionData | custom_components/twilio_call_live/twilio_call.py:103-110 | a None transcript changes nothing; otherwise exactly one segment is added; a due flush runs the match-and-fire step on the merged text, or raises the merge error; before the interval the flush time stays, at or after it the buffer is empty and the flush time is `now` |
| Calls.TwilioCall.ProcessTranscript | custom_components/twilio_call_live/twilio_call.py:116-129 | no match: nothing changes; a match at `k`: position `k` is removed, the others keep their order, and the trigger's event and then DOMAIN are fired with the transcript |
| Calls.TwilioCall.Hangup | custom_components/twilio_call_live/twilio_call.py:131-141 | "hangup" is popped, its function is called once, and the update is requested when a call exists; nothing raises; the session invariant (merger history, one firing per trigger) is kept; the effects appended are exactly Calls.HangupEffects of the old state: the timer's unsubscribe call when it is a function, then the update request when a call exists |
| Calls.TwilioCall.CancelSubscriptions | custom_components/twilio_call_live/twilio_call.py:143-150 | hangup, then each stored function under the three keys in order; the dictionary keeps its other entries; the session invariant (merger history, one firing per trigger) is kept; the effects appended are Calls.HangupEffects followed by Calls.CancelEffects over "data", "hangup", "transcript", characterised by Calls.CancelEffectsReleases |
| Calls.FiredNeverReturned | custom_components/twilio_call_live/twilio_call.py:127 | each trigger fires at most once, and a fired trigger is no longer listed, so no later match returns it |
| ConfigFlow.PopSysKeys | custom_components/twilio_call_live/config_flow.py:95-105 | None gives all-None values; otherwise the four keys are popped into their fields (None when absent), the dict loses exactly those keys and becomes the user input |
| ConfigFlow.PopThenToDictRestores | custom_components/twilio_call_live/config_flow.py:95-105 | with the corrected `to_dict`, popping then converting back restores the input, with None for absent bookkeeping keys |
| ConfigFlow.PopThenToDictAsWritten | custom_components/twilio_call_live/config.py:144-150 | as written, the round trip loses `sys_phrase_index` and puts its value under `sys_event_index` |
| ConfigFlow.NormalizeFromNumber | custom_components/twilio_call_live/config_flow.py:133 | the normalised number holds only digits and "+", and keeps every digit and "+" of the input |
| ConfigFlow.NormalizeConcat | custom_components/twilio_call_live/config_flow.py:133 | normalising a concatenation normalises each part, so digits and "+" keep their order |
| ConfigFlow.NormalizeIdempotent | custom_components/twilio_call_live/config_flow.py:133 | normalising twice equals normalising once |
| ConfigFlow.ValidFromNumber | custom_components/twilio_call_live/config_flow.py:134 | `FROM_NUMBER_PATTERN.match` on a normalised number: an accepted number has 2 to 16 characters, ends in a digit and does not start with "0"; ConfigFlow.ValidFromNumberIff ties it to E.164 shape |
| ConfigFlow.ValidIsE164 | custom_components/twilio_call_live/config_flow.py:134 | an accepted number is a "+" then a non-zero digit, or a non-zero digit, followed by digits only, and normalising leaves it as it is |
| ConfigFlow.ValidFromNumberIff | custom_components/twilio_call_live/config_flow.py:134 | accepted iff in E.164 shape: normalised, "+" only in front, 2 to 15 digits, and a non-zero first digit |
| ConfigFlow.ValidHasShape | custom_components/twilio_call_live/config_flow.py:134 | every number the pattern accepts is in E.164 shape |
| ConfigFlow.ShapeIsValid | custom_components/twilio_call_live/config_flow.py:134 | every number in E.164 shape is accepted by the pattern |
| ConfigFlow.FromNumberErrors | custom_components/twilio_call_live/config_flow.py:131-135 | `invalid_from_number` is recorded exactly for a present number that fails the pattern |
| ConfigFlow.NormalizedInput | custom_components/twilio_call_live/config_flow.py:131-133 | an absent or None number stays None, a string is normalised, any other value raises TypeError |
| ConfigFlow.AsyncStepInit | custom_components/twilio_call_live/config_flow.py:124-140 | no input shows the empty form; any input creates the entry with the normalised number, valid or not |
| ConfigFlow.AsyncStepInitChecked | custom_components/twilio_call_live/config_flow.py:124-140 | the corrected step: an entry is only created with an absent or valid number; an invalid one shows the form with the error |
| ConfigFlow.StepsAgreeOnValidNumbers | custom_components/twilio_call_live/config_flow.py:134-140 | the written and corrected steps agree exactly when the number is absent or valid |
| ConfigFlow.InvalidNumberAccepted | custom_components/twilio_call_live/config_flow.py:134-140 | "0" gets the error, yet the step as written stores it |

## Left out

- Jaro–Winkler similarity (`jellyfish`) is a foreign floating-point library. The model takes any scorer into [0, 1], and thresholds are exact reals.
- Python regular expressions are left out. Compilation (with `re.IGNORECASE`) and search are the uninterpreted `RegexEngine`. The two negated character classes are written out.
- `datetime.now` is not modelled. The clock is a `now` argument, and `timedelta`s are integers of microseconds.
- TranscriptionUtils.TranscriptionMerger.AddSegment: `add_segment` and `flush_buffer` each read the clock. The model uses one reading for both.
- Twilio REST requests, the Home Assistant bus and `async_track_point_in_utc_time` are external I/O. They appear as recorded effects, and their answers are arguments.
- Calls.TwilioCall.CancelSubscriptions: a stored unsubscribe function that raises is not modelled. In `hangup` such an exception would be swallowed; in the loop it would escape.
- `json.loads` of `TranscriptionData` is not modelled. The payload arrives decoded; malformed JSON and non-string transcripts are not modelled.
- Async scheduling is not modelled. Each coroutine runs to completion in one step.
- Calls.TwilioCall.OnTwilioDataReceived: for this call's events it runs `_on_call_complete` to the end. Line 86 creates that coroutine without awaiting it, so as written it would never run (and line 83 already drops every event).
- Calls.TwilioCall.OnTwilioDataReceived: for this call's events the contract states the completion effects as a prefix of the log and the new merger segment. The rest of the transcript's effect is stated by `OnTranscriptionData`.
- `_on_transcription_text` is `pass`, so `TranscriptionText` is ignored. The unused `transcription_resource` attribute, `hass`, `client` and `complete_callback` are not fields; the callback is the `Complete` effect.
- Config.ParseConfig: a non-string "event" is reported as TypeError, whereas Python would accept any value.
- Config.ParseConfig: configuration values are limited to None, int, str and lists of str. A list element that is not a string, which `re.compile` would reject, is not modelled.
- `EventPhrasesList` is a `list` subclass. Only the constructor, `get` and `remove` are modelled.
- Calls.TwilioCall.Create: only dict triggers are accepted, which matches the constructor's annotation.
- Logging is not modelled.
- `__init__.py` (setup, reload, unload, `asyncio.sleep`) is not part of this model.
- `notify.py` is an incomplete stub and is not part of this model.
- The options-flow steps of config_flow.py and `async_step_user` are UI form plumbing and are not part of this model. Only their `remove` calls (config_flow.py:210, 290) are operations modelled here (`EventPhrasesList.Remove`). The wizard also appends raw, uncompiled strings to `phrases` (config_flow.py:443-445), assigns raw strings by index (452-454), appends new `EventPhrases` objects to the list (357-359) and writes `.event` directly (363). None of these goes through `AddPhrase` or `SetPhrase`; the raw strings are where the model's `Literal` phrases come from.
- ConfigFlow.AsyncStepInit: of the form `async_show_form` builds, only its error map is kept.

## Findings

| source | as written | input that shows it | evidently intended | confidence | as-written member | corrected member |
|---|---|---|---|---|---|---|
| custom_components/twilio_call_live/twilio_call.py:83 | the event's CallSid is compared with the CallInstance object, which never equals a str | a RECEIVED_DATA event whose CallSid is this call's sid, carrying TranscriptionData | compare with `self.call_instance.sid` | high; not executed | Calls.TwilioCall.OnTwilioDataReceivedAsWritten, Calls.CallSidNeverMatches | Calls.TwilioCall.OnTwilioDataReceived |
| custom_components/twilio_call_live/config.py:148 | `to_dict` writes `sys_event_index` twice, so the phrase index overwrites the event index and `sys_phrase_index` is never produced | `SystemValues(event_index=0, phrase_index=1)` gives `sys_event_index: 1` | the fourth key is `sys_phrase_index` | high; not executed | Config.SystemValues.ToDict, Config.EventIndexLost, ConfigFlow.PopThenToDictAsWritten | Config.SystemValues.ToDictIntended, ConfigFlow.PopThenToDictRestores |
| custom_components/twilio_call_live/config_flow.py:134-140 | an invalid number records `invalid_from_number`, but the entry is created anyway and the error map is discarded | user input `{"from_number": "0"}` | show the form again with the error | medium; not executed | ConfigFlow.AsyncStepInit, ConfigFlow.InvalidNumberAccepted | ConfigFlow.AsyncStepInitChecked |
