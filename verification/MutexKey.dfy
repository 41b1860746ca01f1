/**
 The lock key of an LBS entry and its way back: `FormMutexKey` joins the data
 stream name and the entry id with a separator, Redis publishes the expiry of
 that key on a keyspace channel, and `CreateByKspNotification` splits it again.
 */
module MutexKey {
  import opened Wrappers
  import opened Decimal

  const SEP: string := "<MUTEX_KEY_SEP>"
  const KEYSPACE_PREFIX: string := "__keyspace@0__:"
  const EXPIRED: string := "expired"

  datatype LBSInfo = LBSInfo(name: string, id: string)

  datatype KspError = NotAKeyspaceChannel | NotAnExpiry | BadFormat

  /** `sub` occurs in `s` at offset `i`. */
  predicate At(s: string, sub: string, i: nat) {
    i + |sub| <= |s| && s[i..i + |sub|] == sub
  }

  ghost predicate Contains(s: string, sub: string) {
    exists i: nat :: At(s, sub, i)
  }

  function FormMutexKey(info: LBSInfo): string {
    info.name + SEP + info.id
  }

  /** Smallest offset at or after `from` where the separator occurs, or the length when there is none. */
  function FirstSep(s: string, from: nat): (i: nat)
    requires from <= |s|
    ensures from <= i <= |s|
    ensures forall j: nat :: from <= j < i ==> !At(s, SEP, j)
    ensures i < |s| ==> At(s, SEP, i)
    decreases |s| - from
  {
    if from == |s| then |s|
    else if At(s, SEP, from) then from
    else FirstSep(s, from + 1)
  }

  /** `strings.Split` on the separator: left to right, occurrences never overlap. */
  function Split(s: string): (parts: seq<string>)
    ensures parts != []
    decreases |s|
  {
    var i := FirstSep(s, 0);
    if i == |s| then [s] else [s[..i]] + Split(s[i + |SEP|..])
  }

  function CreateByKspNotification(key: string, payload: string): Result<LBSInfo, KspError> {
    if payload != EXPIRED then Err(NotAnExpiry)
    else
      var parts := Split(key);
      if |parts| == 1 || |parts| > 2 then Err(BadFormat)
      else Ok(LBSInfo(parts[0], parts[1]))
  }

  function CreateByParts(name: string, id: string): Option<LBSInfo> {
    if |name| == 0 || |id| == 0 then None else Some(LBSInfo(name, id))
  }

  function CutKeyspacePrefix(channel: string): Result<string, KspError> {
    if |KEYSPACE_PREFIX| <= |channel| && channel[..|KEYSPACE_PREFIX|] == KEYSPACE_PREFIX
    then Ok(channel[|KEYSPACE_PREFIX|..])
    else Err(NotAKeyspaceChannel)
  }

  /** What `listenKsp` does with one pub/sub message. */
  function DecodeChannel(channel: string, payload: string): Result<LBSInfo, KspError> {
    match CutKeyspacePrefix(channel)
    case Err(e) => Err(e)
    case Ok(key) => CreateByKspNotification(key, payload)
  }

  /** The channel on which Redis announces events of the lock key. */
  function KeyspaceChannel(info: LBSInfo): string {
    KEYSPACE_PREFIX + FormMutexKey(info)
  }

  // ---- The separator has no self-overlap ----

  lemma OccursCharwise(s: string, i: nat, k: nat)
    requires At(s, SEP, i) && k < |SEP|
    ensures s[i + k] == SEP[k]
  {
    assert s[i..i + |SEP|][k] == s[i + k];
  }

  /** Only the first character of the separator is '<', so two occurrences are disjoint. */
  lemma NoOverlap(s: string, i: nat, j: nat)
    requires At(s, SEP, i) && At(s, SEP, j) && i < j
    ensures i + |SEP| <= j
  {
    OccursCharwise(s, j, 0);
    assert forall k :: 0 < k < |SEP| ==> SEP[k] != '<';
    if j < i + |SEP| {
      OccursCharwise(s, i, j - i);
    }
  }

  lemma KeyHasSeparator(info: LBSInfo)
    ensures At(FormMutexKey(info), SEP, |info.name|)
  {
  }

  lemma ShiftedOccurrence(a: string, b: string, i: nat)
    ensures At(b, SEP, i) ==> At(a + b, SEP, |a| + i)
    ensures At(a + b, SEP, |a| + i) ==> At(b, SEP, i)
  {
    if i + |SEP| <= |b| {
      assert (a + b)[|a| + i..|a| + i + |SEP|] == b[i..i + |SEP|];
    }
  }

  lemma PrefixOccurrence(a: string, b: string, i: nat)
    requires i + |SEP| <= |a|
    ensures At(a, SEP, i) <==> At(a + b, SEP, i)
  {
    assert (a + b)[i..i + |SEP|] == a[i..i + |SEP|];
  }

  // ---- Split, characterised without its recursion ----

  /** A first separator before the key's own one lies inside the name, and the own one is left in the rest. */
  lemma EarlySeparator(info: LBSInfo, i: nat)
    requires i < |info.name| && At(FormMutexKey(info), SEP, i)
    ensures Contains(info.name, SEP)
    ensures i + |SEP| <= |info.name|
    ensures At(FormMutexKey(info)[i + |SEP|..], SEP, |info.name| - i - |SEP|)
  {
    var key := FormMutexKey(info);
    KeyHasSeparator(info);
    NoOverlap(key, i, |info.name|);
    assert key == info.name + (SEP + info.id);
    PrefixOccurrence(info.name, SEP + info.id, i);
    var rest := key[i + |SEP|..];
    assert key == key[..i + |SEP|] + rest;
    ShiftedOccurrence(key[..i + |SEP|], rest, |info.name| - i - |SEP|);
  }

  lemma NameBeforeSeparator(info: LBSInfo)
    requires FirstSep(FormMutexKey(info), 0) == |info.name|
    ensures !Contains(info.name, SEP)
  {
    var key := FormMutexKey(info);
    assert key == info.name + (SEP + info.id);
    forall j: nat ensures !At(info.name, SEP, j) {
      if j + |SEP| <= |info.name| {
        PrefixOccurrence(info.name, SEP + info.id, j);
      }
    }
  }

  /** The key splits into two parts exactly when it holds one separator, and then around it. */
  lemma SplitOfKey(info: LBSInfo)
    ensures |Split(FormMutexKey(info))| >= 2
    ensures |Split(FormMutexKey(info))| == 2 <==> !Contains(info.name, SEP) && !Contains(info.id, SEP)
    ensures |Split(FormMutexKey(info))| == 2 ==> Split(FormMutexKey(info)) == [info.name, info.id]
  {
    var key := FormMutexKey(info);
    KeyHasSeparator(info);
    var i := FirstSep(key, 0);
    var rest := key[i + |SEP|..];
    SplitTwo(rest);
    if i < |info.name| {
      EarlySeparator(info, i);
      assert Contains(rest, SEP);
    } else {
      NameBeforeSeparator(info);
      assert rest == info.id && key[..i] == info.name;
    }
  }

  /** A text is one part exactly when the separator does not occur. */
  lemma SplitTwo(s: string)
    ensures |Split(s)| == 1 <==> !Contains(s, SEP)
    ensures |Split(s)| == 1 ==> Split(s) == [s]
  {
    var i := FirstSep(s, 0);
    assert i < |s| ==> At(s, SEP, i);
    forall j: nat ensures i == |s| ==> !At(s, SEP, j) {
    }
  }

  /**
   Decoding the channel of a lock key gives back exactly the pair it was made
   from, or an error; it succeeds exactly when neither part holds the separator.
   */
  lemma DecodeChannelRoundTrip(info: LBSInfo, payload: string)
    ensures var d := DecodeChannel(KeyspaceChannel(info), payload);
            && (d.Ok? ==> d.value == info)
            && (d.Ok? <==> payload == EXPIRED && !Contains(info.name, SEP) && !Contains(info.id, SEP))
  {
    var channel := KeyspaceChannel(info);
    assert channel[..|KEYSPACE_PREFIX|] == KEYSPACE_PREFIX;
    assert channel[|KEYSPACE_PREFIX|..] == FormMutexKey(info);
    SplitOfKey(info);
  }

  /**
   When two pairs share a lock key: they are equal, or one name is the other
   name, a separator and some text that the other id starts with.
   */
  lemma SharedKey(a: LBSInfo, b: LBSInfo)
    requires |a.name| <= |b.name|
    ensures FormMutexKey(a) == FormMutexKey(b) <==>
            a == b || exists mid :: b.name == a.name + SEP + mid && a.id == mid + SEP + b.id
  {
    var ka, kb := FormMutexKey(a), FormMutexKey(b);
    if ka == kb {
      KeyHasSeparator(a);
      KeyHasSeparator(b);
      if |a.name| == |b.name| {
        assert ka[..|a.name|] == a.name && kb[..|b.name|] == b.name;
        assert ka[|a.name| + |SEP|..] == a.id && kb[|b.name| + |SEP|..] == b.id;
      } else {
        NoOverlap(ka, |a.name|, |b.name|);
        var cut := |a.name| + |SEP|;
        var mid := ka[cut..|b.name|];
        assert b.name == ka[..|b.name|] == ka[..cut] + mid;
        assert ka[..cut] == a.name + SEP;
        assert a.id == ka[cut..] == mid + ka[|b.name|..];
        assert kb[|b.name|..] == SEP + b.id;
        assert a.id == mid + SEP + b.id;
      }
    }
    forall mid | b.name == a.name + SEP + mid && a.id == mid + SEP + b.id ensures ka == kb {
      assert a.name + SEP + (mid + SEP + b.id) == (a.name + SEP + mid) + SEP + b.id;
    }
  }

  // ---- Redis stream ids ----

  const SEQ_SPAN: nat := 0x1_0000_0000_0000_0000

  /** The text `<milliseconds>-<sequence>` of an id held as one number, milliseconds in the high part. */
  function IdText(id: nat): string {
    Digits(id / SEQ_SPAN) + "-" + Digits(id % SEQ_SPAN)
  }

  lemma IdTextParts(ms: nat, sequence: nat)
    requires sequence < SEQ_SPAN
    ensures IdText(ms * SEQ_SPAN + sequence) == Itoa(ms) + "-" + Itoa(sequence)
  {
    hide Digits;
    assert (ms * SEQ_SPAN + sequence) / SEQ_SPAN == ms && (ms * SEQ_SPAN + sequence) % SEQ_SPAN == sequence;
  }

  lemma IdTextHasNoSeparator(id: nat)
    ensures forall i :: 0 <= i < |IdText(id)| ==> IdText(id)[i] != '<'
    ensures !Contains(IdText(id), SEP)
  {
    var t := IdText(id);
    forall j: nat ensures !At(t, SEP, j) {
      if At(t, SEP, j) {
        OccursCharwise(t, j, 0);
      }
    }
  }

  lemma FirstDash(a: string, b: string, i: nat)
    requires AllDigits(a) && i <= |a|
    ensures (a + "-" + b)[i] == '-' <==> i == |a|
  {
  }

  lemma DashSplit(a: string, b: string, c: string, d: string)
    requires AllDigits(a) && AllDigits(c)
    requires a + "-" + b == c + "-" + d
    ensures a == c && b == d
  {
    var s := a + "-" + b;
    var t := c + "-" + d;
    var shorter := if |a| <= |c| then |a| else |c|;
    FirstDash(a, b, shorter);
    FirstDash(c, d, shorter);
    assert s[..|a|] == a && t[..|c|] == c;
    assert s[|a| + 1..] == b && t[|c| + 1..] == d;
  }

  lemma IdTextInjective(m: nat, n: nat)
    requires IdText(m) == IdText(n)
    ensures m == n
  {
    DashSplit(Digits(m / SEQ_SPAN), Digits(m % SEQ_SPAN), Digits(n / SEQ_SPAN), Digits(n % SEQ_SPAN));
    DigitsInjective(m / SEQ_SPAN, n / SEQ_SPAN);
    DigitsInjective(m % SEQ_SPAN, n % SEQ_SPAN);
  }

  function LockKey(name: string, id: nat): string {
    FormMutexKey(LBSInfo(name, IdText(id)))
  }

  /** Entries of a Redis stream never share a lock key, whatever their data stream names contain. */
  lemma LockKeyInjective(name1: string, id1: nat, name2: string, id2: nat)
    requires LockKey(name1, id1) == LockKey(name2, id2)
    ensures name1 == name2 && id1 == id2
  {
    var a, b := LBSInfo(name1, IdText(id1)), LBSInfo(name2, IdText(id2));
    IdTextHasNoSeparator(id1);
    IdTextHasNoSeparator(id2);
    if |name1| <= |name2| {
      SharedKey(a, b);
      forall mid ensures a.id != mid + SEP + b.id {
        assert (mid + SEP + b.id)[|mid|] == '<';
      }
    } else {
      SharedKey(b, a);
      forall mid ensures b.id != mid + SEP + a.id {
        assert (mid + SEP + a.id)[|mid|] == '<';
      }
    }
    IdTextInjective(id1, id2);
  }
}
