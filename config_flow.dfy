/** config_flow.py, the two pieces with logic of their own: `_pop_sys_keys`,
    which moves the options wizard's bookkeeping keys out of the user input,
    and the caller-number handling of the first configuration step. */
module ConfigFlow {
  import opened Base
  import opened PyText
  import opened Const
  import opened Config

  /** `d.get(key, None)`, with Python None as `Null`. */
  function Lookup(d: map<string, Value>, key: string): Value {
    if key in d then d[key] else Null
  }

  /** `_pop_sys_keys(user_input)`: the four keys are popped out of the dict
      itself, which the result then keeps as its user input. */
  method PopSysKeys(userInput: Option<Dict>) returns (sv: SystemValues)
    modifies if userInput.Some? then {userInput.value} else {}
    ensures userInput.None? ==> sv == SystemValues(Null, Null, Null, Null, None)
    ensures userInput.Some? ==>
              var before := old(userInput.value.entries);
              && sv == SystemValues(Lookup(before, SYS_EVENT), Lookup(before, SYS_EVENT_INDEX),
                                    Lookup(before, SYS_PHRASE), Lookup(before, SYS_PHRASE_INDEX), userInput)
              && userInput.value.entries == before - SYS_KEYS
  {
    if userInput.None? {
      return SystemValues(Null, Null, Null, Null, None);
    }
    var d := userInput.value;
    var event := d.Pop(SYS_EVENT);
    var eventIndex := d.Pop(SYS_EVENT_INDEX);
    var phrase := d.Pop(SYS_PHRASE);
    var phraseIndex := d.Pop(SYS_PHRASE_INDEX);
    sv := SystemValues(event, eventIndex, phrase, phraseIndex, userInput);
  }

  /** The Null defaults that popping writes for absent bookkeeping keys. */
  const SYS_DEFAULTS: map<string, Value> :=
    map[SYS_EVENT := Null, SYS_EVENT_INDEX := Null, SYS_PHRASE := Null, SYS_PHRASE_INDEX := Null]

  /** What `_pop_sys_keys` returns for a dict that held `before`. */
  ghost predicate PoppedFrom(sv: SystemValues, before: map<string, Value>)
    reads if sv.userInput.Some? then {sv.userInput.value} else {}
  {
    && sv.userInput.Some? && sv.userInput.value.entries == before - SYS_KEYS
    && sv.event == Lookup(before, SYS_EVENT) && sv.eventIndex == Lookup(before, SYS_EVENT_INDEX)
    && sv.phrase == Lookup(before, SYS_PHRASE) && sv.phraseIndex == Lookup(before, SYS_PHRASE_INDEX)
  }

  /** With the intended `to_dict`, popping and converting back restores the
      user input, with Null for any bookkeeping key it lacked. */
  lemma PopThenToDictRestores(sv: SystemValues, before: map<string, Value>)
    requires PoppedFrom(sv, before)
    ensures sv.ToDictIntended() == Some(SYS_DEFAULTS + before)
  {
    var r := sv.ToDictIntended().value;
    var want := SYS_DEFAULTS + before;
    assert r.Keys == want.Keys;
    forall k | k in r ensures r[k] == want[k] {
      if k !in SYS_KEYS {
        assert k in sv.Extra();
      }
    }
    assert r == want;
  }

  /** With `to_dict` as written the round trip fails whenever the input held
      a phrase index: its key is gone and its value sits under the event index. */
  lemma PopThenToDictAsWritten(sv: SystemValues, before: map<string, Value>)
    requires PoppedFrom(sv, before)
    ensures SYS_PHRASE_INDEX !in sv.ToDict().value
    ensures sv.ToDict().value[SYS_EVENT_INDEX] == Lookup(before, SYS_PHRASE_INDEX)
    ensures SYS_PHRASE_INDEX in before ==> sv.ToDict() != Some(SYS_DEFAULTS + before)
  {
    assert SYS_PHRASE_INDEX !in sv.Extra() && SYS_EVENT_INDEX !in sv.Extra();
    if SYS_PHRASE_INDEX in before {
      assert SYS_PHRASE_INDEX in SYS_DEFAULTS + before;
    }
  }

  /** The characters `FROM_NUMBER_REPLACER` (`[^0-9\+]`) does not delete. */
  predicate IsNumberChar(c: char) {
    '0' <= c <= '9' || c == '+'
  }

  predicate IsDigit(c: char) {
    '0' <= c <= '9'
  }

  /** `re.sub(FROM_NUMBER_REPLACER, "", from_number)`. */
  function NormalizeFromNumber(s: string): (r: string)
    ensures forall i :: 0 <= i < |r| ==> IsNumberChar(r[i])
    ensures forall i :: 0 <= i < |s| && IsNumberChar(s[i]) ==> s[i] in r
  {
    Keep(s, IsNumberChar)
  }

  /** Normalising works character by character, so digits and plus signs keep their order. */
  lemma NormalizeConcat(a: string, b: string)
    ensures NormalizeFromNumber(a + b) == NormalizeFromNumber(a) + NormalizeFromNumber(b)
  {
    KeepConcat(a, b, IsNumberChar);
  }

  /** `FROM_NUMBER_PATTERN.match(s)` for `^\+?[1-9]\d{1,14}$`: an optional
      plus, then a non-zero digit and one to fourteen further digits.  On
      arbitrary text Python's pattern would also accept one trailing "\n",
      and its `\d` matches non-ASCII decimal digits; the step applies it only
      after `NormalizeFromNumber`, which leaves neither, so on every string
      it is given the two agree. */
  predicate ValidFromNumber(s: string)
    ensures ValidFromNumber(s) ==> 2 <= |s| <= 16 && IsDigit(s[|s| - 1]) && s[0] != '0'
  {
    var digits := if |s| > 0 && s[0] == '+' then s[1..] else s;
    && 2 <= |digits| <= 15
    && '1' <= digits[0] <= '9'
    && forall i :: 0 <= i < |digits| ==> IsDigit(digits[i])
  }

  /** Normalising twice is normalising once. */
  lemma NormalizeIdempotent(s: string)
    ensures NormalizeFromNumber(NormalizeFromNumber(s)) == NormalizeFromNumber(s)
  {
    KeepIdempotent(s, IsNumberChar);
  }

  /** A valid number is an E.164 number: at most one plus, only at the front,
      2 to 15 digits and no leading zero; normalising leaves it as it is. */
  lemma ValidIsE164(s: string)
    requires ValidFromNumber(s)
    ensures forall i :: 0 < i < |s| ==> IsDigit(s[i])
    ensures 2 <= |s| <= 16
    ensures s[0] == '+' ==> '1' <= s[1] <= '9' && |s| >= 3
    ensures s[0] != '+' ==> '1' <= s[0] <= '9'
    ensures NormalizeFromNumber(s) == s
  {
    var digits := if s[0] == '+' then s[1..] else s;
    forall i | 0 < i < |s| ensures IsDigit(s[i]) {
      if s[0] == '+' { assert s[i] == digits[i - 1]; }
    }
    forall i | 0 <= i < |s| ensures IsNumberChar(s[i]) {
      if i == 0 && s[0] == '+' { } else { assert IsDigit(s[i]); }
    }
    KeepFixed(s, IsNumberChar);
  }

  /** How many characters of `s` are digits. */
  function DigitCount(s: string): (n: nat)
    ensures n <= |s|
    decreases |s|
  {
    if s == [] then 0 else (if IsDigit(s[0]) then 1 else 0) + DigitCount(s[1..])
  }

  lemma {:induction false} DigitCountAll(s: string)
    requires forall i :: 0 <= i < |s| ==> IsDigit(s[i])
    ensures DigitCount(s) == |s|
    decreases |s|
  {
    if s != [] {
      DigitCountAll(s[1..]);
    }
  }

  /** A number in E.164 shape, in terms an E.164 reader would use: it is
      normalised, a plus can only lead, it holds 2 to 15 digits, and its first
      digit is not zero. */
  predicate E164Shape(s: string) {
    && NormalizeFromNumber(s) == s
    && (forall i :: 0 < i < |s| ==> s[i] != '+')
    && 2 <= DigitCount(s) <= 15
    && var lead := if |s| > 0 && s[0] == '+' then 1 else 0;
       lead < |s| && s[lead] != '0'
  }

  /** The pattern test, both ways: a number passes exactly when it has E.164 shape. */
  lemma ValidFromNumberIff(s: string)
    ensures ValidFromNumber(s) <==> E164Shape(s)
  {
    if ValidFromNumber(s) {
      ValidHasShape(s);
    }
    if E164Shape(s) {
      ShapeIsValid(s);
    }
  }

  /** A leading plus is not a digit. */
  lemma DigitCountAfterPlus(s: string)
    requires |s| > 0 && s[0] == '+'
    ensures DigitCount(s) == DigitCount(s[1..])
  {
  }

  lemma ValidHasShape(s: string)
    requires ValidFromNumber(s)
    ensures E164Shape(s)
  {
    ValidIsE164(s);
    var digits := if s[0] == '+' then s[1..] else s;
    if s[0] == '+' {
      DigitCountAfterPlus(s);
      assert forall i :: 0 <= i < |digits| ==> digits[i] == s[i + 1];
    }
    DigitCountAll(digits);
  }

  lemma ShapeIsValid(s: string)
    requires E164Shape(s)
    ensures ValidFromNumber(s)
  {
    KeepDropsOnlyRejected(s, IsNumberChar);
    var plus := s[0] == '+';
    var digits := if plus then s[1..] else s;
    assert forall i :: 0 <= i < |digits| ==> IsDigit(digits[i]) by {
      forall i | 0 <= i < |digits| ensures IsDigit(digits[i]) {
        if plus { assert digits[i] == s[i + 1]; } else { assert digits[i] == s[i]; }
      }
    }
    if plus {
      DigitCountAfterPlus(s);
    }
    DigitCountAll(digits);
  }

  /** The first step's outcome. */
  datatype FlowResult =
    | ShowForm(errors: map<string, string>)
    | CreateEntry(title: string, data: map<string, Value>)

  /** The `from_number` of the user input after normalisation (Null when absent
      or None); a value that is not a string makes `re.sub` raise TypeError. */
  function NormalizedInput(userInput: map<string, Value>): (r: Result<Value>)
    ensures Lookup(userInput, CONF_FROM_NUMBER).Null? ==> r == Ok(Null)
    ensures Lookup(userInput, CONF_FROM_NUMBER).Str? ==>
              r == Ok(Str(NormalizeFromNumber(Lookup(userInput, CONF_FROM_NUMBER).s)))
    ensures Lookup(userInput, CONF_FROM_NUMBER).Int? || Lookup(userInput, CONF_FROM_NUMBER).StrList? ==>
              r == Err(TypeError)
  {
    match Lookup(userInput, CONF_FROM_NUMBER)
    case Null => Ok(Null)
    case Str(s) => Ok(Str(NormalizeFromNumber(s)))
    case _ => Err(TypeError)
  }

  /** `async_step_init` as written: with user input, the entry is created with
      the normalised number whether or not it passed the pattern, since the
      error map is filled and then never used. */
  function AsyncStepInit(userInput: Option<map<string, Value>>): (r: Result<FlowResult>)
    ensures userInput.None? ==> r == Ok(ShowForm(map[]))
    ensures userInput.Some? && r.Ok? ==>
              && NormalizedInput(userInput.value).Ok?
              && r.value == CreateEntry(DOMAIN, map[CONF_FROM_NUMBER := NormalizedInput(userInput.value).value])
    ensures userInput.Some? ==> (r.Err? <==> NormalizedInput(userInput.value).Err?)
  {
    match userInput
    case None => Ok(ShowForm(map[]))
    case Some(input) =>
      match NormalizedInput(input)
      case Err(e) => Err(e)
      case Ok(number) => Ok(CreateEntry(DOMAIN, map[CONF_FROM_NUMBER := number]))
  }

  /** The form error the step computes for an invalid number. */
  const INVALID_FROM_NUMBER: string := "invalid_from_number"

  /** The `_errors` map of `async_step_init`: set for a normalised number
      that fails the pattern; an absent number is not checked. */
  function FromNumberErrors(number: Value): (errors: map<string, string>)
    ensures CONF_FROM_NUMBER in errors <==> number.Str? && !ValidFromNumber(number.s)
    ensures errors == map[] || errors == map[CONF_FROM_NUMBER := INVALID_FROM_NUMBER]
  {
    if number.Str? && !ValidFromNumber(number.s) then map[CONF_FROM_NUMBER := INVALID_FROM_NUMBER] else map[]
  }

  /** `async_step_init` as evidently intended: an invalid number shows the
      form again with the error instead of creating the entry. */
  function AsyncStepInitChecked(userInput: Option<map<string, Value>>): (r: Result<FlowResult>)
    ensures userInput.None? ==> r == Ok(ShowForm(map[]))
    ensures userInput.Some? ==> (r.Err? <==> NormalizedInput(userInput.value).Err?)
    ensures r.Ok? && r.value.CreateEntry? ==>
              && r.value.title == DOMAIN && CONF_FROM_NUMBER in r.value.data
              && var v := r.value.data[CONF_FROM_NUMBER];
                 v.Null? || (v.Str? && ValidFromNumber(v.s))
    ensures userInput.Some? && r.Ok? && r.value.ShowForm? ==>
              r.value.errors == map[CONF_FROM_NUMBER := INVALID_FROM_NUMBER]
  {
    match userInput
    case None => Ok(ShowForm(map[]))
    case Some(input) =>
      match NormalizedInput(input)
      case Err(e) => Err(e)
      case Ok(number) =>
        var errors := FromNumberErrors(number);
        if CONF_FROM_NUMBER in errors then Ok(ShowForm(errors))
        else Ok(CreateEntry(DOMAIN, map[CONF_FROM_NUMBER := number]))
  }

  /** The two steps agree exactly when the number is absent or valid. */
  lemma StepsAgreeOnValidNumbers(input: map<string, Value>)
    requires NormalizedInput(input).Ok?
    ensures AsyncStepInit(Some(input)) == AsyncStepInitChecked(Some(input)) <==>
              (NormalizedInput(input).value.Null? || ValidFromNumber(NormalizedInput(input).value.s))
  {
  }

  /** A caller number of "0" fails the pattern and gets its error, yet the
      step as written stores it. */
  lemma InvalidNumberAccepted()
    ensures FromNumberErrors(Str("0")) == map[CONF_FROM_NUMBER := INVALID_FROM_NUMBER]
    ensures AsyncStepInit(Some(map[CONF_FROM_NUMBER := Str("0")]))
            == Ok(CreateEntry(DOMAIN, map[CONF_FROM_NUMBER := Str("0")]))
    ensures AsyncStepInitChecked(Some(map[CONF_FROM_NUMBER := Str("0")]))
            == Ok(ShowForm(map[CONF_FROM_NUMBER := INVALID_FROM_NUMBER]))
  {
    assert NormalizeFromNumber("0") == "0" by {
      KeepFixed("0", IsNumberChar);
    }
  }
}
