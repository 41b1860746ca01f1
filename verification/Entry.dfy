/**
 One entry of the load-balancer stream (LBS): its field map, the retry counter
 kept in it, the data stream name found in it, and the field maps that a
 re-queue and a dead-letter write derive from it.
 */
module Entry {
  import opened Wrappers
  import opened Decimal

  const LBS_INPUT: string := "lbs-input"
  const RETRY_COUNT: string := "_retry_count"
  const DLQ_REASON: string := "_dlq_reason"
  const REASON_MAX_RETRIES: string := "max_retries_exceeded"
  const REASON_UNPARSEABLE: string := "unparseable"

  /** A field value as the Redis library hands it over; only strings are usable. */
  datatype Value = Str(text: string) | NotAString

  type Fields = map<string, Value>

  datatype NameError = MissingInput | InputNotAString | BadJson | EmptyName

  /** JSON decoding of the input field: `None` for malformed text, otherwise the stream name it holds. */
  type Parser = string -> Option<string>

  function RetryCount(f: Fields): (n: int)
    ensures 0 <= n <= MAX_INT
  {
    if RETRY_COUNT !in f then 0
    else match f[RETRY_COUNT]
      case NotAString => 0
      case Str(s) =>
        match Atoi(s)
        case None => 0
        case Some(n) => if n < 0 then 0 else n
  }

  /** `retryCount() + 1` in 64-bit arithmetic: it wraps at the top. */
  function NextRetry(n: int): int {
    if n == MAX_INT then MIN_INT else n + 1
  }

  function DataStreamName(parse: Parser, f: Fields): Result<string, NameError> {
    if LBS_INPUT !in f then Err(MissingInput)
    else match f[LBS_INPUT]
      case NotAString => Err(InputNotAString)
      case Str(s) =>
        match parse(s)
        case None => Err(BadJson)
        case Some(name) => if name == "" then Err(EmptyName) else Ok(name)
  }

  function RequeueFields(f: Fields, next: int): Fields {
    f[RETRY_COUNT := Str(Itoa(next))]
  }

  function DeadFields(f: Fields, count: int, reason: string): Fields {
    f[RETRY_COUNT := Str(Itoa(count))][DLQ_REASON := Str(reason)]
  }

  /** Same fields and values, the retry counter aside. */
  ghost predicate SamePayload(f: Fields, g: Fields) {
    f - {RETRY_COUNT} == g - {RETRY_COUNT}
  }

  /** Same fields and values, the retry counter and the dead-letter reason aside. */
  ghost predicate SameDeadPayload(f: Fields, g: Fields) {
    f - {RETRY_COUNT, DLQ_REASON} == g - {RETRY_COUNT, DLQ_REASON}
  }

  /** `cloneValues`: the copy loop, which leaves the original map alone. */
  method CloneValues(f: Fields) returns (out: Fields)
    ensures out == f
  {
    out := map[];
    var todo := f.Keys;
    while todo != {}
      invariant todo <= f.Keys
      invariant out.Keys == f.Keys - todo
      invariant forall k :: k in out ==> out[k] == f[k]
      decreases |todo|
    {
      var k :| k in todo;
      out := out[k := f[k]];
      todo := todo - {k};
    }
  }

  /** The counter field holds a text of `n`. */
  ghost predicate Carries(f: Fields, n: int) {
    RETRY_COUNT in f && f[RETRY_COUNT].Str? && IsTextOf(f[RETRY_COUNT].text, n)
  }

  /** The counter field is there and holds a text of a counter. */
  ghost predicate Usable(f: Fields) {
    exists n :: 0 <= n <= MAX_INT && Carries(f, n)
  }

  /** The counter is what the field holds; a field that is missing, no string, no 64-bit integer or negative
      counts as 0. */
  lemma RetryCountReads(f: Fields, n: int)
    requires 0 <= n <= MAX_INT
    ensures RetryCount(f) == n <==> Carries(f, n) || (n == 0 && !Usable(f))
  {
    hide Atoi, IsTextOf;
    if RETRY_COUNT in f && f[RETRY_COUNT].Str? {
      var text := f[RETRY_COUNT].text;
      AtoiIff(text, n);
      forall m | 0 <= m <= MAX_INT ensures Carries(f, m) <==> Atoi(text) == Some(m) {
        AtoiIff(text, m);
      }
      assert Atoi(text).Some? && Atoi(text).value >= 0 ==> Carries(f, Atoi(text).value) by {
        if Atoi(text).Some? { AtoiIff(text, Atoi(text).value); }
      }
    }
  }

  /** A printed number is read back as it is when it is a counter, as 0 when it is negative. */
  lemma RetryCountOfText(f: Fields, n: int)
    requires InRange(n) && RETRY_COUNT in f && f[RETRY_COUNT] == Str(Itoa(n))
    ensures RetryCount(f) == if n < 0 then 0 else n
  {
    ItoaAtoi(n);
  }

  /** Which entries have a name, and which one. */
  lemma NameIff(parse: Parser, f: Fields, name: string)
    ensures DataStreamName(parse, f) == Ok(name) <==>
            name != "" && exists text :: LBS_INPUT in f && f[LBS_INPUT] == Str(text) && parse(text) == Some(name)
  {
  }

  /** A copy carries the printed counter: what is read back is the new count, or 0 after the wrap. */
  lemma RequeueCount(f: Fields, n: int)
    requires 0 <= n <= MAX_INT
    ensures RetryCount(RequeueFields(f, NextRetry(n))) == if n == MAX_INT then 0 else n + 1
  {
    ItoaAtoi(NextRetry(n));
  }

  lemma RequeueKeepsPayload(f: Fields, n: int)
    ensures SamePayload(RequeueFields(f, n), f)
  {
  }

  lemma DeadKeepsPayload(f: Fields, n: int, reason: string)
    ensures SameDeadPayload(DeadFields(f, n, reason), f)
  {
  }

  /** A dead letter of an entry with fields `f`. */
  ghost predicate IsLetter(letter: Fields, f: Fields, count: int, reason: string) {
    && RETRY_COUNT in letter && letter[RETRY_COUNT] == Str(Itoa(count))
    && DLQ_REASON in letter && letter[DLQ_REASON] == Str(reason)
    && SameDeadPayload(letter, f)
  }

  /** The copy of an entry with fields `f` that goes back into the stream. */
  ghost predicate IsCopy(copy: Fields, f: Fields, count: int) {
    RETRY_COUNT in copy && copy[RETRY_COUNT] == Str(Itoa(count)) && SamePayload(copy, f)
  }

  lemma DeadIsLetter(f: Fields, count: int, reason: string)
    ensures IsLetter(DeadFields(f, count, reason), f, count, reason)
  {
    hide Itoa;
    assert RETRY_COUNT != DLQ_REASON;
    DeadKeepsPayload(f, count, reason);
  }

  lemma RequeueIsCopy(f: Fields, count: int)
    ensures IsCopy(RequeueFields(f, count), f, count)
  {
    hide Itoa;
    RequeueKeepsPayload(f, count);
  }

  lemma LetterOfOriginal(letter: Fields, f: Fields, g: Fields, count: int, reason: string)
    requires IsLetter(letter, f, count, reason) && SamePayload(f, g)
    ensures IsLetter(letter, g, count, reason)
  {
    hide Itoa, SamePayload, SameDeadPayload;
    SamePayloadDead(letter, f, g);
  }

  lemma SamePayloadDead(f: Fields, g: Fields, h: Fields)
    requires SameDeadPayload(f, g) && SamePayload(g, h)
    ensures SameDeadPayload(f, h)
  {
    assert g - {RETRY_COUNT, DLQ_REASON} == (g - {RETRY_COUNT}) - {DLQ_REASON};
    assert h - {RETRY_COUNT, DLQ_REASON} == (h - {RETRY_COUNT}) - {DLQ_REASON};
  }

  /** The data stream name only depends on fields that recovery never touches. */
  lemma SamePayloadSameName(parse: Parser, f: Fields, g: Fields)
    requires SamePayload(f, g)
    ensures DataStreamName(parse, f) == DataStreamName(parse, g)
  {
    assert LBS_INPUT in f <==> LBS_INPUT in f - {RETRY_COUNT};
    assert LBS_INPUT in g <==> LBS_INPUT in g - {RETRY_COUNT};
    if LBS_INPUT in f {
      assert f[LBS_INPUT] == (f - {RETRY_COUNT})[LBS_INPUT];
      assert g[LBS_INPUT] == (g - {RETRY_COUNT})[LBS_INPUT];
    }
  }
}
