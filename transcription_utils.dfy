/** transcription_utils.py: the merger that stitches partial speech-to-text
    segments together on a timed cadence, and the matcher that finds the first
    configured event whose phrases fit a transcript. */
module TranscriptionUtils {
  import opened Base
  import opened PyText
  import opened Lists
  import opened Config

  /** timedelta(seconds=1), with time counted in microseconds. */
  const DEFAULT_FLUSH_INTERVAL: int := 1_000_000
  /** The merger's overlap threshold. */
  const DEFAULT_OVERLAP_THRESHOLD: real := 0.5
  /** The matcher's fuzzy-match threshold. */
  const DEFAULT_MATCH_THRESHOLD: real := 0.8

  /** `merge_two_segments(seg1, seg2)`.  When the two are similar enough, the
      last word of `seg1` is looked up in `seg2` and only what follows its first
      occurrence is appended; otherwise the two are joined with one space.
      `seg1.split()[-1]` raises IndexError when `seg1` has no word. */
  function MergeTwoSegments(seg1: string, seg2: string, sim: Similarity, threshold: real): (r: Result<string>)
    ensures r.Err? <==> sim(seg1, seg2) > threshold && AllSpace(seg1)
    ensures r.Err? ==> r.error == IndexError
    ensures r.Ok? ==> seg1 <= r.value
  {
    if sim(seg1, seg2) > threshold then
      match LastWord(seg1)
      case None => Err(IndexError)
      case Some(tok) =>
        var i := Find(seg2, tok);
        if i != -1 then Ok(seg1 + seg2[i + |tok|..]) else Ok(seg1 + " " + seg2)
    else
      Ok(seg1 + " " + seg2)
  }

  /** Below the threshold, or when the last word of `seg1` is nowhere in
      `seg2`, the segments are joined with exactly one space. */
  lemma MergeTwoJoins(seg1: string, seg2: string, sim: Similarity, threshold: real)
    requires sim(seg1, seg2) <= threshold
             || (LastWord(seg1).Some? && !Contains(seg2, LastWord(seg1).value))
    ensures MergeTwoSegments(seg1, seg2, sim, threshold) == Ok(seg1 + " " + seg2)
  {
  }

  /** Above the threshold, with the last word `tok` of `seg1` first found in
      `seg2` at index `i`, the result is `seg1 + seg2[i + |tok|..]`. */
  lemma MergeTwoStitches(seg1: string, seg2: string, sim: Similarity, threshold: real, tok: string, i: nat)
    requires sim(seg1, seg2) > threshold
    requires LastWord(seg1) == Some(tok)
    requires OccursAt(seg2, tok, i) && forall j :: 0 <= j < i ==> !OccursAt(seg2, tok, j)
    ensures MergeTwoSegments(seg1, seg2, sim, threshold) == Ok(seg1 + seg2[i + |tok|..])
  {
  }

  /** Two overlapping segments: the repeated word "brown" is kept once. */
  lemma OverlapExample(sim: Similarity, threshold: real)
    requires sim("the quick brown", "brown fox jumps") > threshold
    ensures MergeTwoSegments("the quick brown", "brown fox jumps", sim, threshold)
            == Ok("the quick brown fox jumps")
  {
    LastWordOfExample();
    FindInExample();
    assert "brown fox jumps"[5..] == " fox jumps";
    assert "the quick brown" + " fox jumps" == "the quick brown fox jumps";
  }

  lemma LastWordOfExample()
    ensures LastWord("the quick brown") == Some("brown")
  {
    assert "the quick brown" == "the quick " + "brown";
    assert IsSpace("the quick "[9]);
    assert NoSpace("brown");
    LastWordAfterSpace("the quick ", "brown");
  }

  lemma FindInExample()
    ensures Find("brown fox jumps", "brown") == 0
  {
    assert OccursAt("brown fox jumps", "brown", 0);
  }

  /** `merge_segments(segments)`, as a specification: "" for no segments, the
      first segment unchanged for one, and otherwise the left fold of
      `MergeTwoSegments` in arrival order, stopping at the first exception. */
  function MergeAll(segments: seq<string>, sim: Similarity, threshold: real): (r: Result<string>)
    ensures segments == [] ==> r == Ok("")
    ensures |segments| == 1 ==> r == Ok(segments[0])
    ensures |segments| >= 1 && r.Ok? ==> segments[0] <= r.value
    decreases |segments|
  {
    if |segments| <= 1 then
      if segments == [] then Ok("") else Ok(segments[0])
    else
      var init := segments[..|segments| - 1];
      assert init[0] == segments[0];
      match MergeAll(init, sim, threshold)
      case Err(e) => Err(e)
      case Ok(acc) => MergeTwoSegments(acc, segments[|segments| - 1], sim, threshold)
  }

  /** The textbook left fold, written from the front, as an independent reference. */
  function FoldMerge(acc: string, rest: seq<string>, sim: Similarity, threshold: real): Result<string>
    decreases |rest|
  {
    if rest == [] then Ok(acc)
    else match MergeTwoSegments(acc, rest[0], sim, threshold)
      case Err(e) => Err(e)
      case Ok(next) => FoldMerge(next, rest[1..], sim, threshold)
  }

  lemma {:induction false} FoldMergeSnoc(acc: string, rest: seq<string>, last: string, sim: Similarity, threshold: real)
    ensures FoldMerge(acc, rest + [last], sim, threshold)
            == match FoldMerge(acc, rest, sim, threshold)
               case Err(e) => Err(e)
               case Ok(a) => MergeTwoSegments(a, last, sim, threshold)
    decreases |rest|
  {
    if rest == [] {
      assert rest + [last] == [last];
    } else {
      assert (rest + [last])[0] == rest[0];
      assert (rest + [last])[1..] == rest[1..] + [last];
      match MergeTwoSegments(acc, rest[0], sim, threshold)
      case Err(e) =>
      case Ok(next) =>
        FoldMergeSnoc(next, rest[1..], last, sim, threshold);
    }
  }

  /** `merge_segments` is the left fold of `merge_two_segments` over the list:
      start from the first segment and merge each later one in turn. */
  lemma {:induction false} MergeAllIsLeftFold(segments: seq<string>, sim: Similarity, threshold: real)
    requires |segments| >= 1
    ensures MergeAll(segments, sim, threshold) == FoldMerge(segments[0], segments[1..], sim, threshold)
    decreases |segments|
  {
    if |segments| > 1 {
      var init := segments[..|segments| - 1];
      MergeAllIsLeftFold(init, sim, threshold);
      assert init[0] == segments[0];
      assert segments[1..] == init[1..] + [segments[|segments| - 1]];
      FoldMergeSnoc(segments[0], init[1..], segments[|segments| - 1], sim, threshold);
    }
  }

  /** What one flush hands over. */
  datatype FlushOutcome =
    | NoCallback               // nothing buffered: the callback is not called
    | Callback(text: string)   // the callback was called once, with this text
    | Raised(error: Error)     // merging raised; the callback was not called

  /** The outcome of flushing the buffered segments `segments`. */
  function FlushResult(segments: seq<string>, sim: Similarity, threshold: real): FlushOutcome {
    if segments == [] then NoCallback
    else match MergeAll(segments, sim, threshold)
      case Ok(text) => Callback(text)
      case Err(e) => Raised(e)
  }

  /** `TranscriptionMerger`: a buffer of segments and the time of the last
      flush.  The callback is modelled by the outcome each method returns. */
  class TranscriptionMerger {
    var segments: seq<string>
    var lastTime: int
    const flushInterval: int
    const threshold: real
    const sim: Similarity
    /** Every segment ever added, and every segment a flush has taken, in order. */
    ghost var received: seq<string>
    ghost var drained: seq<string>

    /** No segment is lost or reordered: what was added is what was drained
        followed by what is still buffered. */
    ghost predicate Valid()
      reads this
    {
      received == drained + segments
    }

    constructor (now: int, flushInterval: int, threshold: real, sim: Similarity)
      ensures Valid() && segments == [] && lastTime == now && received == []
      ensures this.flushInterval == flushInterval && this.threshold == threshold && this.sim == sim
    {
      segments := [];
      lastTime := now;
      this.flushInterval := flushInterval;
      this.threshold := threshold;
      this.sim := sim;
      received := [];
      drained := [];
    }

    /** `merge_segments(segments)`: the loop over the segments after the first. */
    method MergeSegments(segs: seq<string>) returns (r: Result<string>)
      ensures r == MergeAll(segs, sim, threshold)
    {
      if segs == [] {
        return Ok("");
      }
      MergeAllIsLeftFold(segs, sim, threshold);
      var merged := segs[0];
      var i := 1;
      while i < |segs|
        invariant 1 <= i <= |segs|
        invariant FoldMerge(merged, segs[i..], sim, threshold) == MergeAll(segs, sim, threshold)
      {
        assert segs[i..][0] == segs[i] && segs[i..][1..] == segs[i + 1..];
        var step := MergeTwoSegments(merged, segs[i], sim, threshold);
        if step.Err? {
          return Err(step.error);
        }
        merged := step.value;
        i := i + 1;
      }
      r := Ok(merged);
    }

    /** `flush_buffer()`: always stamps the time; with segments buffered, takes
        them all, empties the buffer and hands their merge to the callback. */
    method FlushBuffer(now: int) returns (out: FlushOutcome)
      requires Valid()
      modifies this
      ensures Valid()
      ensures lastTime == now && segments == []
      ensures received == old(received) && drained == old(drained) + old(segments)
      ensures out == FlushResult(old(segments), sim, threshold)
    {
      lastTime := now;
      if segments == [] {
        return NoCallback;
      }
      var taken := segments;
      segments := [];
      drained := drained + taken;
      var merged := MergeSegments(taken);
      match merged
      case Ok(text) =>
        out := Callback(text);
      case Err(e) =>
        out := Raised(e);
    }

    /** `add_segment(segment)`: always appends; flushes only when at least
        `flushInterval` has passed since the last flush. */
    method AddSegment(segment: string, now: int) returns (out: FlushOutcome)
      requires Valid()
      modifies this
      ensures Valid()
      ensures received == old(received) + [segment]
      ensures now - old(lastTime) < flushInterval ==>
                && segments == old(segments) + [segment]
                && lastTime == old(lastTime) && drained == old(drained) && out == NoCallback
      ensures now - old(lastTime) >= flushInterval ==>
                && segments == [] && lastTime == now
                && drained == old(drained) + old(segments) + [segment]
                && out == FlushResult(old(segments) + [segment], sim, threshold)
    {
      segments := segments + [segment];
      received := received + [segment];
      if now - lastTime < flushInterval {
        return NoCallback;
      }
      out := FlushBuffer(now);
    }
  }

  /** Once merging a prefix has raised, merging the whole list raises the same. */
  lemma {:induction false} MergeAllErrorStays(segs: seq<string>, n: nat, sim: Similarity, threshold: real)
    requires 1 <= n <= |segs|
    requires MergeAll(segs[..n], sim, threshold).Err?
    ensures MergeAll(segs, sim, threshold) == MergeAll(segs[..n], sim, threshold)
    decreases |segs| - n
  {
    if n < |segs| {
      assert segs[..n + 1][..n] == segs[..n];
      MergeAllErrorStays(segs, n + 1, sim, threshold);
    } else {
      assert segs[..n] == segs;
    }
  }

  /** `PhraseMatcher`: scans the trigger list for the first event with a
      phrase similar to the transcript. */
  class PhraseMatcher {
    const eventPhrases: EventPhrasesList
    const threshold: real
    const sim: Similarity
    const re: RegexEngine

    constructor (eventPhrases: EventPhrasesList, threshold: real, sim: Similarity, re: RegexEngine)
      ensures this.eventPhrases == eventPhrases && this.threshold == threshold
      ensures this.sim == sim && this.re == re
    {
      this.eventPhrases := eventPhrases;
      this.threshold := threshold;
      this.sim := sim;
      this.re := re;
    }

    /** `are_similar(transcript, phrase)`: a compiled pattern is searched for in
        the raw transcript; a raw string must score strictly above the threshold. */
    predicate AreSimilar(transcript: string, phrase: Phrase)
      ensures phrase.Regex? ==> (AreSimilar(transcript, phrase) <==> re.search(phrase.pattern, transcript))
      ensures phrase.Literal? && threshold >= 1.0 ==> !AreSimilar(transcript, phrase)
      ensures phrase.Literal? && threshold < 0.0 ==> AreSimilar(transcript, phrase)
    {
      match phrase
      case Regex(p) => re.search(p, transcript)
      case Literal(s) => sim(transcript, s) > threshold
    }

    /** The inner loop of `phrase_match_event`: some phrase of `e` is similar. */
    predicate EventMatches(e: EventPhrases, transcript: string)
      reads e
      ensures EventMatches(e, transcript) <==>
                exists j :: 0 <= j < |e.phrases| && AreSimilar(transcript, e.phrases[j])
    {
      Any(e.phrases, p => AreSimilar(transcript, p))
    }

    function MatchFrom(transcript: string, i: nat): (r: Option<nat>)
      reads eventPhrases, eventPhrases.items
      ensures r.Some? ==> i <= r.value < |eventPhrases.items|
                          && EventMatches(eventPhrases.items[r.value], transcript)
                          && forall j :: i <= j < r.value ==> !EventMatches(eventPhrases.items[j], transcript)
      ensures r.None? ==> forall j :: i <= j < |eventPhrases.items| ==> !EventMatches(eventPhrases.items[j], transcript)
      decreases |eventPhrases.items| - i
    {
      if i >= |eventPhrases.items| then None
      else if EventMatches(eventPhrases.items[i], transcript) then Some(i)
      else MatchFrom(transcript, i + 1)
    }

    /** The position `phrase_match_event` stops at, if any. */
    function MatchIndex(transcript: string): Option<nat>
      reads eventPhrases, eventPhrases.items
    {
      MatchFrom(transcript, 0)
    }

    /** `phrase_match_event(transcript)`: the first event in list order with a
        similar phrase, or None when no event has one. */
    function PhraseMatchEvent(transcript: string): (r: Option<EventPhrases>)
      reads eventPhrases, eventPhrases.items
      ensures r.None? <==> forall k :: 0 <= k < |eventPhrases.items| ==> !EventMatches(eventPhrases.items[k], transcript)
      ensures r.Some? ==> r.value in eventPhrases.items && EventMatches(r.value, transcript)
      ensures r.Some? ==> exists k :: (0 <= k < |eventPhrases.items| && r.value == eventPhrases.items[k]
                                       && forall j :: 0 <= j < k ==> !EventMatches(eventPhrases.items[j], transcript))
    {
      match MatchIndex(transcript)
      case None => None
      case Some(k) => Some(eventPhrases.items[k])
    }

    /** The matched entry is the first one equal to itself as a dataclass, so
        `list.remove(event)` removes exactly the matched position. */
    lemma RemovesMatched(transcript: string, k: nat)
      requires MatchIndex(transcript) == Some(k)
      ensures eventPhrases.IndexOfValueFrom(eventPhrases.items[k], 0) == Some(k)
    {
      var items := eventPhrases.items;
      forall j | 0 <= j < k ensures !SameValue(items[j], items[k]) {
        assert !EventMatches(items[j], transcript);
      }
    }
  }
}
