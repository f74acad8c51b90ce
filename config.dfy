/** config.py: an event together with the phrases that trigger it
    (EventPhrases), the ordered list of such triggers (EventPhrasesList), and
    the bookkeeping record of the options wizard (SystemValues). */
module Config {
  import opened Base
  import opened PyText
  import opened Lists
  import opened Const

  /** An entry of `EventPhrases.phrases`: a compiled pattern (always compiled
      with re.IGNORECASE in this code) or a raw string. */
  datatype Phrase = Regex(pattern: string) | Literal(text: string)

  /** `p.pattern if isinstance(p, re.Pattern) else p`. */
  function PatternOf(p: Phrase): string {
    match p
    case Regex(s) => s
    case Literal(s) => s
  }

  /** The characters TEXT_REPLACE_PATTERN = [^a-zA-Z0-9 -] leaves in place. */
  predicate IsTextChar(c: char) {
    ('a' <= c <= 'z') || ('A' <= c <= 'Z') || ('0' <= c <= '9') || c == ' ' || c == '-'
  }

  /** `re.sub(TEXT_REPLACE_PATTERN, "", text)`. */
  function CleanText(text: string): (r: string)
    ensures forall i :: 0 <= i < |r| ==> IsTextChar(r[i])
    ensures forall i :: 0 <= i < |text| && IsTextChar(text[i]) ==> text[i] in r
    ensures r == text <==> forall i :: 0 <= i < |text| ==> IsTextChar(text[i])
  {
    KeepDropsOnlyRejected(text, IsTextChar);
    Keep(text, IsTextChar)
  }

  /** Cleaning works character by character, so the kept characters stay in order. */
  lemma CleanTextConcat(a: string, b: string)
    ensures CleanText(a + b) == CleanText(a) + CleanText(b)
  {
    KeepConcat(a, b, IsTextChar);
  }

  /** One phrase of `is_match` against the cleaned text: a pattern is searched
      for, a raw string must occur as a substring. */
  predicate PhraseHits(p: Phrase, clean: string, re: RegexEngine) {
    match p
    case Regex(s) => re.search(s, clean)
    case Literal(s) => Contains(clean, s)
  }

  /** `[re.compile(phrase, re.IGNORECASE) for phrase in items]`; the first
      pattern that does not compile raises re.error. */
  function CompileAll(items: seq<string>, re: RegexEngine): (r: Result<seq<Phrase>>)
    ensures r.Ok? <==> forall i :: 0 <= i < |items| ==> re.compiles(items[i])
    ensures r.Ok? ==> |r.value| == |items| && forall i :: 0 <= i < |items| ==> r.value[i] == Regex(items[i])
    ensures r.Err? ==> r.error.PatternError? && r.error.pattern in items && !re.compiles(r.error.pattern)
    decreases |items|
  {
    if items == [] then Ok([])
    else if !re.compiles(items[0]) then Err(PatternError(items[0]))
    else match CompileAll(items[1..], re)
      case Err(e) => Err(e)
      case Ok(rest) =>
        assert forall i :: 1 <= i < |items| ==> items[i] == items[1..][i - 1];
        Ok([Regex(items[0])] + rest)
  }

  /** The characters of `s` as one-character strings: what iterating over a str yields. */
  function Chars(s: string): (r: seq<string>)
    ensures |r| == |s| && forall i :: 0 <= i < |s| ==> r[i] == [s[i]]
  {
    seq(|s|, i requires 0 <= i < |s| => [s[i]])
  }

  /** The work of `EventPhrases.from_config`: the event and the compiled
      phrases.  `config["event"]` is read first, then `config["phrases"]` is
      iterated (a str iterates over its characters; None and int are not
      iterable and raise TypeError). */
  function ParseConfig(config: map<string, Value>, re: RegexEngine): (r: Result<(string, seq<Phrase>)>)
    ensures "event" !in config ==> r == Err(KeyError("event"))
    ensures "event" in config && config["event"].Str? && "phrases" !in config ==> r == Err(KeyError("phrases"))
    ensures r.Ok? ==> "event" in config && config["event"] == Str(r.value.0) && "phrases" in config
    ensures r.Ok? ==> forall i :: 0 <= i < |r.value.1| ==> r.value.1[i].Regex?
    ensures "event" in config && !config["event"].Str? ==> r == Err(TypeError)
    ensures "event" in config && config["event"].Str? && "phrases" in config && (config["phrases"].Null? || config["phrases"].Int?) ==>
              r == Err(TypeError)
    ensures "event" in config && config["event"].Str? && "phrases" in config && config["phrases"].StrList? ==>
              r.Ok? == (forall i :: 0 <= i < |config["phrases"].items| ==> re.compiles(config["phrases"].items[i]))
    ensures "event" in config && config["event"].Str? && "phrases" in config && config["phrases"].Str? ==>
              r.Ok? == (forall i :: 0 <= i < |config["phrases"].s| ==> re.compiles([config["phrases"].s[i]]))
    ensures r.Ok? && "phrases" in config && config["phrases"].StrList? ==>
              var items := config["phrases"].items;
              |r.value.1| == |items| && forall i :: 0 <= i < |items| ==> r.value.1[i] == Regex(items[i])
    ensures r.Ok? && "phrases" in config && config["phrases"].Str? ==>
              var s := config["phrases"].s;
              |r.value.1| == |s| && forall i :: 0 <= i < |s| ==> r.value.1[i] == Regex([s[i]])
    ensures r.Err? ==> r.error.KeyError? || r.error.TypeError? || r.error.PatternError?
  {
    if "event" !in config then Err(KeyError("event"))
    else if !config["event"].Str? then Err(TypeError)
    else if "phrases" !in config then Err(KeyError("phrases"))
    else
      var compiled := match config["phrases"]
        case StrList(items) => CompileAll(items, re)
        case Str(s) => CompileAll(Chars(s), re)
        case _ => Err(TypeError);
      match compiled
      case Err(e) => Err(e)
      case Ok(ps) => Ok((config["event"].s, ps))
  }

  /** The argument of `remove_phrase`: `int | str`. */
  datatype PhraseKey = Index(i: int) | Text(s: string)

  /** `phrase != s` for a phrase and a str: a compiled pattern never equals a str. */
  predicate DiffersFromStr(p: Phrase, s: string) {
    match p
    case Regex(_) => true
    case Literal(t) => t != s
  }

  /** The filter condition of `remove_phrase(str)`, as written:
      `(isinstance(p, re.Pattern) and p.pattern != s) or p != s`. */
  predicate KeptByTextRemoval(p: Phrase, s: string) {
    (p.Regex? && p.pattern != s) || DiffersFromStr(p, s)
  }

  /** That condition drops exactly the raw strings equal to `s`; every
      compiled pattern survives, even one whose pattern text is `s`. */
  lemma KeptByTextRemovalIff(p: Phrase, s: string)
    ensures KeptByTextRemoval(p, s) <==> p != Literal(s)
    ensures p.Regex? ==> KeptByTextRemoval(p, s)
  {
  }

  predicate IsRegex(p: Phrase) {
    p.Regex?
  }

  /** Text removal leaves the subsequence of compiled patterns exactly as it was. */
  lemma {:induction false} TextRemovalKeepsPatterns(ps: seq<Phrase>, s: string)
    ensures Filter(Filter(ps, p => KeptByTextRemoval(p, s)), IsRegex) == Filter(ps, IsRegex)
    decreases |ps|
  {
    if ps != [] {
      TextRemovalKeepsPatterns(ps[1..], s);
    }
  }

  /** A list of compiled patterns and raw strings, bound to one event. */
  class EventPhrases {
    var event: string
    var phrases: seq<Phrase>

    constructor (event: string, phrases: seq<Phrase>)
      ensures this.event == event && this.phrases == phrases
    {
      this.event := event;
      this.phrases := phrases;
    }

    /** `EventPhrases.from_config(config)`: a new object, or the exception
        `ParseConfig` reports. */
    static method FromConfig(config: map<string, Value>, re: RegexEngine) returns (r: Result<EventPhrases>)
      ensures ParseConfig(config, re).Err? ==> r == Err(ParseConfig(config, re).error)
      ensures ParseConfig(config, re).Ok? ==>
                && r.Ok? && fresh(r.value)
                && r.value.event == ParseConfig(config, re).value.0
                && r.value.phrases == ParseConfig(config, re).value.1
    {
      match ParseConfig(config, re)
      case Err(e) =>
        r := Err(e);
      case Ok(parsed) =>
        var obj := new EventPhrases(parsed.0, parsed.1);
        r := Ok(obj);
    }

    /** The `patterns` property: one pattern text per phrase, same order. */
    function Patterns(): (r: seq<string>)
      reads this
      ensures |r| == |phrases|
      ensures forall i :: 0 <= i < |phrases| ==> r[i] == PatternOf(phrases[i])
    {
      seq(|phrases|, i requires 0 <= i < |phrases| reads this => PatternOf(phrases[i]))
    }

    /** The `phrases_string` property: the patterns joined with "|". */
    function PhrasesString(): (r: string)
      reads this
      ensures |phrases| == 1 ==> r == Patterns()[0]
      ensures |phrases| >= 1 ==> Patterns()[0] <= r
    {
      Join(Patterns(), "|")
    }

    /** `get_pattern(index)`: Python indexing into the phrases. */
    function GetPattern(index: int): (r: Result<string>)
      reads this
      ensures r.Err? <==> !(-|phrases| <= index < |phrases|)
      ensures r.Err? ==> r.error == IndexError
      ensures 0 <= index < |phrases| ==> r == Ok(Patterns()[index])
      ensures -|phrases| <= index < 0 ==> r == Ok(Patterns()[|phrases| + index])
    {
      match PyIndex(index, |phrases|)
      case None => Err(IndexError)
      case Some(k) => Ok(PatternOf(phrases[k]))
    }

    /** `is_match(text)`: some phrase hits the text with every character
        outside [a-zA-Z0-9 -] removed. */
    predicate IsMatch(text: string, re: RegexEngine)
      reads this
      ensures IsMatch(text, re) <==>
                exists i :: 0 <= i < |phrases| && PhraseHits(phrases[i], CleanText(text), re)
    {
      var clean := CleanText(text);
      Any(phrases, p => PhraseHits(p, clean, re))
    }

    /** `add_phrase(phrase)`: compile and append; returns self. */
    method AddPhrase(phrase: string, re: RegexEngine) returns (r: Result<EventPhrases>)
      modifies this
      ensures event == old(event)
      ensures re.compiles(phrase) ==> r == Ok(this) && phrases == old(phrases) + [Regex(phrase)]
      ensures !re.compiles(phrase) ==> r == Err(PatternError(phrase)) && phrases == old(phrases)
    {
      if !re.compiles(phrase) {
        return Err(PatternError(phrase));
      }
      phrases := phrases + [Regex(phrase)];
      r := Ok(this);
    }

    /** `set_phrase(idx, phrase)`: the pattern is compiled before the index is
        checked, so a bad pattern wins over a bad index. */
    method SetPhrase(idx: int, phrase: string, re: RegexEngine) returns (r: Result<EventPhrases>)
      modifies this
      ensures event == old(event)
      ensures !re.compiles(phrase) ==> r == Err(PatternError(phrase)) && phrases == old(phrases)
      ensures re.compiles(phrase) && PyIndex(idx, |old(phrases)|).None? ==>
                r == Err(IndexError) && phrases == old(phrases)
      ensures re.compiles(phrase) && PyIndex(idx, |old(phrases)|).Some? ==>
                && r == Ok(this)
                && phrases == old(phrases)[PyIndex(idx, |old(phrases)|).value := Regex(phrase)]
    {
      if !re.compiles(phrase) {
        return Err(PatternError(phrase));
      }
      match PyIndex(idx, |phrases|)
      case None =>
        r := Err(IndexError);
      case Some(k) =>
        phrases := phrases[k := Regex(phrase)];
        r := Ok(this);
    }

    /** `remove_phrase(phrase_or_index)`.  With an index: `phrases.remove(phrases[i])`,
        which drops the FIRST phrase equal to `phrases[i]`.  With a string: the
        filtering comprehension whose condition is `KeptByTextRemoval`. */
    method RemovePhrase(key: PhraseKey) returns (r: Result<EventPhrases>)
      modifies this
      ensures event == old(event)
      ensures key.Index? && PyIndex(key.i, |old(phrases)|).None? ==>
                r == Err(IndexError) && phrases == old(phrases)
      ensures key.Index? && PyIndex(key.i, |old(phrases)|).Some? ==>
                && r == Ok(this)
                && var target := old(phrases)[PyIndex(key.i, |old(phrases)|).value];
                   && IndexOf(old(phrases), target).Some?
                   && phrases == RemoveAt(old(phrases), IndexOf(old(phrases), target).value)
      ensures key.Text? ==>
                r == Ok(this) && phrases == Filter(old(phrases), p => KeptByTextRemoval(p, key.s))
    {
      match key
      case Index(i) =>
        match PyIndex(i, |phrases|) {
          case None =>
            r := Err(IndexError);
          case Some(k) =>
            var j := IndexOf(phrases, phrases[k]).value;
            phrases := RemoveAt(phrases, j);
            r := Ok(this);
        }
      case Text(s) =>
        phrases := Filter(phrases, p => KeptByTextRemoval(p, s));
        r := Ok(this);
    }

    /** `to_dict()`: the event and the pattern texts. */
    function ToDict(): (r: map<string, Value>)
      reads this
      ensures r.Keys == {CONF_EVENT, CONF_PHRASES}
    {
      map[CONF_EVENT := Str(event), CONF_PHRASES := StrList(Patterns())]
    }
  }

  /** `phrases_string` can be split back into the patterns when there is at
      least one and none of them contains "|". */
  lemma PhrasesStringSplits(e: EventPhrases)
    requires |e.phrases| >= 1
    requires forall i :: 0 <= i < |e.phrases| ==> '|' !in PatternOf(e.phrases[i])
    ensures SplitOn(e.PhrasesString(), '|') == e.Patterns()
  {
    SplitJoin(e.Patterns(), '|');
  }

  /** Round trip: reading back `to_dict()` gives the same event and the same
      pattern texts, all now compiled, provided every pattern text compiles. */
  lemma ToDictRoundTrip(e: EventPhrases, re: RegexEngine)
    requires forall i :: 0 <= i < |e.phrases| ==> re.compiles(PatternOf(e.phrases[i]))
    ensures ParseConfig(e.ToDict(), re).Ok?
    ensures ParseConfig(e.ToDict(), re).value.0 == e.event
    ensures var ps := ParseConfig(e.ToDict(), re).value.1;
            |ps| == |e.phrases| && forall i :: 0 <= i < |ps| ==> ps[i] == Regex(e.Patterns()[i])
  {
    var d := e.ToDict();
    assert d["event"] == Str(e.event);
    assert d["phrases"] == StrList(e.Patterns());
  }

  /** Dataclass equality of two EventPhrases: same event, same phrases. */
  predicate SameValue(a: EventPhrases, b: EventPhrases)
    reads a, b
  {
    a.event == b.event && a.phrases == b.phrases
  }

  /** An element of the list given to the EventPhrasesList constructor. */
  datatype Entry = Object(obj: EventPhrases) | Mapping(config: map<string, Value>)

  /** The constructor's conversion of one entry succeeded into `e`: an object
      passes through as it is, a dict is parsed into a new object. */
  ghost predicate Converted(entry: Entry, e: EventPhrases, re: RegexEngine)
    reads e
  {
    match entry
    case Object(obj) => e == obj
    case Mapping(config) =>
      ParseConfig(config, re).Ok? && e.event == ParseConfig(config, re).value.0
      && e.phrases == ParseConfig(config, re).value.1
  }

  /** The ordered trigger list (a subclass of list in Python). */
  class EventPhrasesList {
    var items: seq<EventPhrases>

    constructor (items: seq<EventPhrases>)
      ensures this.items == items
    {
      this.items := items;
    }

    /** `EventPhrasesList(entries)`: converts dicts with `from_config`, keeps
        objects, same length and order; the first dict that does not parse
        raises and no list is built. */
    static method Build(entries: seq<Entry>, re: RegexEngine) returns (r: Result<EventPhrasesList>)
      ensures r.Err? ==> exists i :: 0 <= i < |entries| && entries[i].Mapping?
                            && ParseConfig(entries[i].config, re) == Err(r.error)
                            && forall j :: 0 <= j < i && entries[j].Mapping? ==> ParseConfig(entries[j].config, re).Ok?
      ensures r.Ok? ==> forall i :: 0 <= i < |entries| && entries[i].Mapping? ==> ParseConfig(entries[i].config, re).Ok?
      ensures r.Ok? ==> fresh(r.value) && |r.value.items| == |entries|
      ensures r.Ok? ==> forall i :: 0 <= i < |entries| ==> Converted(entries[i], r.value.items[i], re)
      ensures r.Ok? ==> forall i :: 0 <= i < |entries| && entries[i].Mapping? ==> fresh(r.value.items[i])
      ensures r.Ok? ==> forall i, j :: 0 <= i < j < |entries| && entries[i].Mapping? ==> r.value.items[i] != r.value.items[j]
    {
      var built: seq<EventPhrases> := [];
      var n := 0;
      while n < |entries|
        invariant n <= |entries| && |built| == n
        invariant forall i :: 0 <= i < n && entries[i].Mapping? ==> ParseConfig(entries[i].config, re).Ok?
        invariant forall i :: 0 <= i < n ==> Converted(entries[i], built[i], re)
        invariant forall i :: 0 <= i < n && entries[i].Mapping? ==> fresh(built[i])
        invariant forall i, j :: 0 <= i < j < n && entries[i].Mapping? ==> built[i] != built[j]
        decreases |entries| - n
      {
        var e: EventPhrases;
        match entries[n] {
          case Object(obj) =>
            e := obj;
          case Mapping(config) =>
            var parsed := EventPhrases.FromConfig(config, re);
            if parsed.Err? {
              return Err(parsed.error);
            }
            e := parsed.value;
        }
        built := built + [e];
        n := n + 1;
      }
      var list := new EventPhrasesList(built);
      r := Ok(list);
    }

    function GetFrom(text: string, re: RegexEngine, i: nat): (r: Option<nat>)
      reads this, items
      ensures r.Some? ==> i <= r.value < |items| && items[r.value].IsMatch(text, re)
                          && forall j :: i <= j < r.value ==> !items[j].IsMatch(text, re)
      ensures r.None? ==> forall j :: i <= j < |items| ==> !items[j].IsMatch(text, re)
      decreases |items| - i
    {
      if i >= |items| then None
      else if items[i].IsMatch(text, re) then Some(i)
      else GetFrom(text, re, i + 1)
    }

    /** `get(text)`: the event of the first entry whose `is_match` holds. */
    function Get(text: string, re: RegexEngine): (r: Option<string>)
      reads this, items
      ensures r.None? <==> forall k :: 0 <= k < |items| ==> !items[k].IsMatch(text, re)
      ensures r.Some? ==> exists k :: (0 <= k < |items| && items[k].IsMatch(text, re)
                                       && r.value == items[k].event
                                       && forall j :: 0 <= j < k ==> !items[j].IsMatch(text, re))
    {
      match GetFrom(text, re, 0)
      case None => None
      case Some(k) => Some(items[k].event)
    }

    function IndexOfValueFrom(e: EventPhrases, i: nat): (r: Option<nat>)
      reads this, items, e
      ensures r.Some? ==> i <= r.value < |items| && SameValue(items[r.value], e)
                          && forall j :: i <= j < r.value ==> !SameValue(items[j], e)
      ensures r.None? ==> forall j :: i <= j < |items| ==> !SameValue(items[j], e)
      decreases |items| - i
    {
      if i >= |items| then None
      else if SameValue(items[i], e) then Some(i)
      else IndexOfValueFrom(e, i + 1)
    }

    /** `list.remove(e)`: drops the first entry equal to `e` as a dataclass;
        ValueError when there is none. */
    method Remove(e: EventPhrases) returns (r: Result<()>)
      modifies this
      ensures old(IndexOfValueFrom(e, 0)).None? ==> r == Err(ValueError) && items == old(items)
      ensures old(IndexOfValueFrom(e, 0)).Some? ==>
                r == Ok(()) && items == RemoveAt(old(items), old(IndexOfValueFrom(e, 0)).value)
    {
      match IndexOfValueFrom(e, 0)
      case None =>
        r := Err(ValueError);
      case Some(j) =>
        items := RemoveAt(items, j);
        r := Ok(());
    }
  }

  /** A Python dict that `_pop_sys_keys` edits in place and SystemValues keeps. */
  class Dict {
    var entries: map<string, Value>

    constructor (entries: map<string, Value>)
      ensures this.entries == entries
    {
      this.entries := entries;
    }

    /** `d.pop(key, None)`. */
    method Pop(key: string) returns (v: Value)
      modifies this
      ensures v == (if key in old(entries) then old(entries)[key] else Null)
      ensures entries == old(entries) - {key}
    {
      v := if key in entries then entries[key] else Null;
      entries := entries - {key};
    }
  }

  /** The options wizard's bookkeeping: the selected event and phrase and the
      rest of the user input (Python None is `Null` / `None`). */
  datatype SystemValues = SystemValues(
    event: Value, eventIndex: Value, phrase: Value, phraseIndex: Value, userInput: Option<Dict>)
  {
    predicate AllNone() {
      event == Null && eventIndex == Null && phrase == Null && phraseIndex == Null && userInput.None?
    }

    function Extra(): map<string, Value>
      reads if userInput.Some? then {userInput.value} else {}
    {
      if userInput.Some? then userInput.value.entries else map[]
    }

    /** `to_dict()`, as written: SYS_EVENT_INDEX is written twice, so the
        event index is lost under the phrase index, and no SYS_PHRASE_INDEX key
        is produced; the user-input entries are merged last and win. */
    function ToDict(): (r: Option<map<string, Value>>)
      reads if userInput.Some? then {userInput.value} else {}
      ensures r.None? <==> AllNone()
      ensures r.Some? ==> r.value.Keys == {SYS_EVENT, SYS_EVENT_INDEX, SYS_PHRASE} + Extra().Keys
      ensures r.Some? ==> forall k :: k in Extra() ==> r.value[k] == Extra()[k]
      ensures r.Some? && SYS_EVENT_INDEX !in Extra() ==> r.value[SYS_EVENT_INDEX] == phraseIndex
      ensures r.Some? && SYS_EVENT !in Extra() ==> r.value[SYS_EVENT] == event
      ensures r.Some? && SYS_PHRASE !in Extra() ==> r.value[SYS_PHRASE] == phrase
      ensures r.Some? ==> (SYS_PHRASE_INDEX in r.value <==> SYS_PHRASE_INDEX in Extra())
    {
      if AllNone() then None
      else
        var base := map[SYS_EVENT := event, SYS_EVENT_INDEX := eventIndex, SYS_PHRASE := phrase];
        var written := base[SYS_EVENT_INDEX := phraseIndex];
        Some(written + Extra())
    }

    /** `to_dict()` as evidently intended: the fourth key is SYS_PHRASE_INDEX. */
    function ToDictIntended(): (r: Option<map<string, Value>>)
      reads if userInput.Some? then {userInput.value} else {}
      ensures r.None? <==> AllNone()
      ensures r.Some? ==> r.value.Keys == SYS_KEYS + Extra().Keys
      ensures r.Some? ==> forall k :: k in Extra() ==> r.value[k] == Extra()[k]
      ensures r.Some? && SYS_EVENT !in Extra() ==> r.value[SYS_EVENT] == event
      ensures r.Some? && SYS_EVENT_INDEX !in Extra() ==> r.value[SYS_EVENT_INDEX] == eventIndex
      ensures r.Some? && SYS_PHRASE !in Extra() ==> r.value[SYS_PHRASE] == phrase
      ensures r.Some? && SYS_PHRASE_INDEX !in Extra() ==> r.value[SYS_PHRASE_INDEX] == phraseIndex
    {
      if AllNone() then None
      else
        Some(map[SYS_EVENT := event, SYS_EVENT_INDEX := eventIndex, SYS_PHRASE := phrase,
                 SYS_PHRASE_INDEX := phraseIndex] + Extra())
    }
  }

  /** The event index survives `to_dict` only when it equals the phrase index
      or the user input overrides the key: the duplicate key at work. */
  lemma EventIndexLost(sv: SystemValues)
    requires !sv.AllNone() && SYS_EVENT_INDEX !in sv.Extra()
    ensures sv.ToDict().value[SYS_EVENT_INDEX] == sv.eventIndex <==> sv.eventIndex == sv.phraseIndex
  {
  }
}
