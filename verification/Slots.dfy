/**
 `slotOwnership`: the text of CLUSTER NODES reduced to who owns which slots, in
 a form that two nodes print identically exactly when they agree.
 */
module Slots {
  import opened Wrappers
  import opened Sorting

  // ---- Splitting and joining ----

  /** `unicode.IsSpace`. */
  predicate IsSpace(c: char) {
    || '\t' <= c <= '\r' || c == ' ' || c == '\U{0085}' || c == '\U{00A0}' || c == '\U{1680}'
    || '\U{2000}' <= c <= '\U{200a}' || c == '\U{2028}' || c == '\U{2029}' || c == '\U{202f}'
    || c == '\U{205f}' || c == '\U{3000}'
  }

  predicate IsNewline(c: char) { c == '\n' }

  predicate IsComma(c: char) { c == ',' }

  predicate Free(s: string, cut: char -> bool) {
    forall i :: 0 <= i < |s| ==> !cut(s[i])
  }

  /** Pieces between the cut characters, as `strings.Split` on one character. */
  function SplitBy(s: string, cut: char -> bool): (parts: seq<string>)
    ensures parts != [] && forall i :: 0 <= i < |parts| ==> Free(parts[i], cut)
  {
    if s == [] then [[]]
    else
      var rest := SplitBy(s[1..], cut);
      if cut(s[0]) then [[]] + rest else [[s[0]] + rest[0]] + rest[1..]
  }

  function NonEmpty(parts: seq<string>): (r: seq<string>)
    ensures forall i :: 0 <= i < |r| ==> r[i] != [] && r[i] in parts
  {
    if parts == [] then []
    else if parts[0] == [] then NonEmpty(parts[1..])
    else [parts[0]] + NonEmpty(parts[1..])
  }

  /** `strings.Fields`: the maximal runs without white space. */
  function Fields(s: string): (r: seq<string>)
    ensures forall i :: 0 <= i < |r| ==> r[i] != [] && Free(r[i], IsSpace)
  {
    NonEmpty(SplitBy(s, IsSpace))
  }

  function Join(parts: seq<string>, sep: char): string {
    if parts == [] then []
    else if |parts| == 1 then parts[0]
    else parts[0] + [sep] + Join(parts[1..], sep)
  }

  lemma {:induction false} SplitFree(s: string, cut: char -> bool)
    requires Free(s, cut)
    ensures SplitBy(s, cut) == [s]
  {
    if s != [] {
      SplitFree(s[1..], cut);
      assert [s[0]] + s[1..] == s;
    }
  }

  lemma {:induction false} SplitAtCut(a: string, c: char, b: string, cut: char -> bool)
    requires Free(a, cut) && cut(c)
    ensures SplitBy(a + [c] + b, cut) == [a] + SplitBy(b, cut)
  {
    var s := a + [c] + b;
    if a == [] {
      assert s[1..] == b;
    } else {
      assert s[1..] == a[1..] + [c] + b;
      SplitAtCut(a[1..], c, b, cut);
      assert [a[0]] + a[1..] == a;
    }
  }

  /** Joining pieces that are free of the separator can be undone. */
  lemma {:induction false} SplitJoin(parts: seq<string>, sep: char, cut: char -> bool)
    requires parts != [] && cut(sep) && forall i :: 0 <= i < |parts| ==> Free(parts[i], cut)
    ensures SplitBy(Join(parts, sep), cut) == parts
  {
    if |parts| == 1 {
      SplitFree(parts[0], cut);
    } else {
      SplitJoin(parts[1..], sep, cut);
      SplitAtCut(parts[0], sep, Join(parts[1..], sep), cut);
      assert [parts[0]] + parts[1..] == parts;
    }
  }

  // ---- Owners ----

  /** A slot-owning node: its id and its slot tokens. */
  datatype Owner = Owner(id: string, slots: seq<string>)

  function Unbracketed(tokens: seq<string>): (r: seq<string>)
    ensures forall i :: 0 <= i < |r| ==> r[i] in tokens
  {
    if tokens == [] then []
    else if |tokens[0]| > 0 && tokens[0][0] == '[' then Unbracketed(tokens[1..])
    else [tokens[0]] + Unbracketed(tokens[1..])
  }

  /** One line of CLUSTER NODES: eight columns, then the slots; bracketed tokens are open slots. */
  function OwnerOf(line: string): Option<Owner> {
    var f := Fields(line);
    if |f| < 9 then None
    else
      var slots := Unbracketed(f[8..]);
      if slots == [] then None else Some(Owner(f[0], slots))
  }

  function OwnersOf(lines: seq<string>): seq<Owner> {
    if lines == [] then []
    else match OwnerOf(lines[0])
      case None => OwnersOf(lines[1..])
      case Some(o) => [o] + OwnersOf(lines[1..])
  }

  function Owners(text: string): seq<Owner> {
    OwnersOf(SplitBy(text, IsNewline))
  }

  function Render(o: Owner): string {
    o.id + [' '] + Join(o.slots, ',')
  }

  function SlotOwnership(text: string): string {
    Join(Sort(Map(Render, Owners(text))), '\n')
  }

  /** `slotOwnership` as it is written: loops that append, then sort and join. */
  method ComputeSlotOwnership(text: string) returns (r: string)
    ensures r == SlotOwnership(text)
  {
    var lines := SplitBy(text, IsNewline);
    var owners: seq<string> := [];
    hide SplitBy, Fields, Join, Unbracketed, Sort;
    for i := 0 to |lines|
      invariant owners == Map(Render, OwnersOf(lines[..i]))
    {
      OneMoreLine(lines, i);
      var f := Fields(lines[i]);
      if |f| < 9 {
        continue;
      }
      var slots := SlotTokens(f);
      if |slots| > 0 {
        owners := owners + [f[0] + [' '] + Join(slots, ',')];
      }
    }
    assert lines[..|lines|] == lines;
    r := Join(Sort(owners), '\n');
  }

  /** The inner loop: the tokens after the eighth column that are not bracketed. */
  method SlotTokens(f: seq<string>) returns (slots: seq<string>)
    requires |f| >= 9
    ensures slots == Unbracketed(f[8..])
  {
    slots := [];
    for j := 8 to |f|
      invariant slots == Unbracketed(f[8..j])
    {
      assert f[8..j + 1] == f[8..j] + [f[j]];
      UnbracketedAppend(f[8..j], [f[j]]);
      if !(|f[j]| > 0 && f[j][0] == '[') {
        slots := slots + [f[j]];
      }
    }
    assert f[8..|f|] == f[8..];
  }

  lemma OneMoreLine(lines: seq<string>, i: nat)
    requires i < |lines|
    ensures Map(Render, OwnersOf(lines[..i + 1])) ==
            Map(Render, OwnersOf(lines[..i])) +
            match OwnerOf(lines[i]) case None => [] case Some(o) => [Render(o)]
  {
    assert lines[..i + 1] == lines[..i] + [lines[i]];
    OwnersAppend(lines[..i], [lines[i]]);
    MapAppend(Render, OwnersOf(lines[..i]), OwnersOf([lines[i]]));
    OwnersOne(lines[i]);
  }

  lemma {:induction false} UnbracketedAppend(a: seq<string>, b: seq<string>)
    ensures Unbracketed(a + b) == Unbracketed(a) + Unbracketed(b)
  {
    if a == [] {
      assert a + b == b;
    } else {
      assert (a + b)[1..] == a[1..] + b;
      UnbracketedAppend(a[1..], b);
    }
  }

  lemma {:induction false} OwnersAppend(a: seq<string>, b: seq<string>)
    ensures OwnersOf(a + b) == OwnersOf(a) + OwnersOf(b)
  {
    if a == [] {
      assert a + b == b;
    } else {
      assert (a + b)[1..] == a[1..] + b;
      OwnersAppend(a[1..], b);
    }
  }

  lemma OwnersOne(line: string)
    ensures OwnersOf([line]) == match OwnerOf(line) case None => [] case Some(o) => [o]
    ensures Map(Render, OwnersOf([line])) == match OwnerOf(line) case None => [] case Some(o) => [Render(o)]
  {
    assert [line][1..] == [];
  }

  // ---- What owners look like ----

  /** Node id and tokens are non-empty and free of white space. */
  ghost predicate WellFormed(o: Owner) {
    && o.id != [] && Free(o.id, IsSpace) && o.slots != []
    && forall i :: 0 <= i < |o.slots| ==> o.slots[i] != [] && Free(o.slots[i], IsSpace)
  }

  lemma OwnerWellFormed(line: string)
    ensures OwnerOf(line).Some? ==> WellFormed(OwnerOf(line).value)
  {
    var f := Fields(line);
    if |f| >= 9 {
      var slots := Unbracketed(f[8..]);
      forall i | 0 <= i < |slots| ensures slots[i] != [] && Free(slots[i], IsSpace) {
        assert slots[i] in f[8..];
        var j :| 0 <= j < |f[8..]| && f[8..][j] == slots[i];
        assert slots[i] == f[8 + j];
      }
    }
  }

  lemma {:induction false} OwnersWellFormed(lines: seq<string>)
    ensures forall i :: 0 <= i < |OwnersOf(lines)| ==> WellFormed(OwnersOf(lines)[i])
  {
    if lines != [] {
      OwnersWellFormed(lines[1..]);
      OwnerWellFormed(lines[0]);
    }
  }

  lemma {:induction false} JoinFree(parts: seq<string>, sep: char, cut: char -> bool)
    requires !cut(sep) && forall i :: 0 <= i < |parts| ==> Free(parts[i], cut)
    ensures Free(Join(parts, sep), cut)
  {
    if |parts| > 1 {
      JoinFree(parts[1..], sep, cut);
    }
  }

  lemma SpaceFreeNewlineFree(s: string)
    requires Free(s, IsSpace)
    ensures Free(s, IsNewline)
  {
    forall i | 0 <= i < |s| ensures !IsNewline(s[i]) { assert !IsSpace(s[i]); }
  }

  lemma RenderLine(o: Owner)
    requires WellFormed(o)
    ensures Render(o) != [] && Free(Render(o), IsNewline)
  {
    SpaceFreeNewlineFree(o.id);
    forall i | 0 <= i < |o.slots| ensures Free(o.slots[i], IsNewline) { SpaceFreeNewlineFree(o.slots[i]); }
    JoinFree(o.slots, ',', IsNewline);
  }

  // ---- Canonical form ----

  /** The lines that are sorted and joined. */
  function Lines(text: string): seq<string> {
    Map(Render, Owners(text))
  }

  lemma LinesPrintable(text: string)
    ensures forall i :: 0 <= i < |Lines(text)| ==> Lines(text)[i] != [] && Free(Lines(text)[i], IsNewline)
  {
    OwnersWellFormed(SplitBy(text, IsNewline));
    forall i | 0 <= i < |Lines(text)| ensures Lines(text)[i] != [] && Free(Lines(text)[i], IsNewline) {
      RenderLine(Owners(text)[i]);
    }
  }

  lemma SortPrintable(ls: seq<string>)
    requires forall i :: 0 <= i < |ls| ==> ls[i] != [] && Free(ls[i], IsNewline)
    ensures forall i :: 0 <= i < |Sort(ls)| ==> Sort(ls)[i] != [] && Free(Sort(ls)[i], IsNewline)
  {
    forall i | 0 <= i < |Sort(ls)| ensures Sort(ls)[i] != [] && Free(Sort(ls)[i], IsNewline) {
      assert Sort(ls)[i] in multiset(Sort(ls));
      assert Sort(ls)[i] in ls;
    }
  }

  /** Joining lines with newlines loses nothing. */
  lemma JoinInjective(a: seq<string>, b: seq<string>)
    requires forall i :: 0 <= i < |a| ==> a[i] != [] && Free(a[i], IsNewline)
    requires forall i :: 0 <= i < |b| ==> b[i] != [] && Free(b[i], IsNewline)
    requires Join(a, '\n') == Join(b, '\n')
    ensures a == b
  {
    if a != [] && b != [] {
      SplitJoin(a, '\n', IsNewline);
      SplitJoin(b, '\n', IsNewline);
    }
  }

  /** Two texts print the same ownership exactly when they have the same owner lines, in whatever order. */
  lemma SameLines(t1: string, t2: string)
    ensures SlotOwnership(t1) == SlotOwnership(t2) <==> multiset(Lines(t1)) == multiset(Lines(t2))
  {
    hide Owners, Sort;
    LinesPrintable(t1);
    LinesPrintable(t2);
    SortPrintable(Lines(t1));
    SortPrintable(Lines(t2));
    SortCanonical(Lines(t1), Lines(t2));
    if SlotOwnership(t1) == SlotOwnership(t2) {
      JoinInjective(Sort(Lines(t1)), Sort(Lines(t2)));
    }
  }

  // ---- Lines and owners ----

  /** No slot token holds a comma, as in every CLUSTER NODES answer (tokens are numbers and ranges). */
  ghost predicate CommaFree(o: Owner) {
    forall i :: 0 <= i < |o.slots| ==> Free(o.slots[i], IsComma)
  }

  /** Cutting a line at its first space, then at commas. */
  function Unrender(line: string): Owner {
    var parts := SplitBy(line, IsSpace);
    if |parts| < 2 then Owner(line, []) else Owner(parts[0], SplitBy(Join(parts[1..], ' '), IsComma))
  }

  lemma UnrenderRender(o: Owner)
    requires WellFormed(o) && CommaFree(o)
    ensures Unrender(Render(o)) == o
  {
    var tail := Join(o.slots, ',');
    JoinFree(o.slots, ',', IsSpace);
    SplitAtCut(o.id, ' ', tail, IsSpace);
    SplitFree(tail, IsSpace);
    assert SplitBy(Render(o), IsSpace) == [o.id, tail];
    assert [o.id, tail][1..] == [tail];
    SplitJoin(o.slots, ',', IsComma);
  }

  lemma UnrenderAll(os: seq<Owner>)
    requires forall i :: 0 <= i < |os| ==> WellFormed(os[i]) && CommaFree(os[i])
    ensures Map(Unrender, Map(Render, os)) == os
  {
    forall i | 0 <= i < |os| ensures Map(Unrender, Map(Render, os))[i] == os[i] {
      UnrenderRender(os[i]);
    }
  }

  /**
   The canonical form: two texts print the same ownership exactly when they have the same owners with the
   same slot lists, as multisets - whatever the order of the lines and whatever the other columns hold.
   */
  lemma SlotOwnershipCanonical(t1: string, t2: string)
    requires forall o :: o in Owners(t1) || o in Owners(t2) ==> CommaFree(o)
    ensures SlotOwnership(t1) == SlotOwnership(t2) <==> multiset(Owners(t1)) == multiset(Owners(t2))
  {
    hide SlotOwnership, Render, Unrender, WellFormed, CommaFree;
    SameLines(t1, t2);
    OwnersWellFormed(SplitBy(t1, IsNewline));
    OwnersWellFormed(SplitBy(t2, IsNewline));
    UnrenderAll(Owners(t1));
    UnrenderAll(Owners(t2));
    if multiset(Owners(t1)) == multiset(Owners(t2)) {
      MapMultiset(Render, Owners(t1), Owners(t2));
    }
    if multiset(Lines(t1)) == multiset(Lines(t2)) {
      MapMultiset(Unrender, Lines(t1), Lines(t2));
    }
  }

  /** Exactly which owners print the same line. */
  lemma SameLineIff(a: Owner, b: Owner)
    requires WellFormed(a) && WellFormed(b)
    ensures Render(a) == Render(b) <==> a.id == b.id && Join(a.slots, ',') == Join(b.slots, ',')
  {
    JoinFree(a.slots, ',', IsSpace);
    JoinFree(b.slots, ',', IsSpace);
    SplitAtCut(a.id, ' ', Join(a.slots, ','), IsSpace);
    SplitAtCut(b.id, ' ', Join(b.slots, ','), IsSpace);
    SplitFree(Join(a.slots, ','), IsSpace);
    SplitFree(Join(b.slots, ','), IsSpace);
    assert SplitBy(Render(a), IsSpace) == [a.id, Join(a.slots, ',')];
    assert SplitBy(Render(b), IsSpace) == [b.id, Join(b.slots, ',')];
    assert [a.id, Join(a.slots, ',')][0] == a.id && [a.id, Join(a.slots, ',')][1] == Join(a.slots, ',');
  }

  /** What a line shows of its owner: the node id and the joined slots. */
  function Shown(o: Owner): (string, string) {
    (o.id, Join(o.slots, ','))
  }

  function RenderShown(k: (string, string)): string {
    k.0 + [' '] + k.1
  }

  function ReadShown(line: string): (string, string) {
    var parts := SplitBy(line, IsSpace);
    if |parts| == 2 then (parts[0], parts[1]) else (line, [])
  }

  lemma ReadShownRender(o: Owner)
    requires WellFormed(o)
    ensures Render(o) == RenderShown(Shown(o)) && ReadShown(Render(o)) == Shown(o)
  {
    var tail := Join(o.slots, ',');
    JoinFree(o.slots, ',', IsSpace);
    SplitAtCut(o.id, ' ', tail, IsSpace);
    SplitFree(tail, IsSpace);
    assert SplitBy(Render(o), IsSpace) == [o.id, tail];
  }

  lemma ShownAll(os: seq<Owner>)
    requires forall i :: 0 <= i < |os| ==> WellFormed(os[i])
    ensures Map(RenderShown, Map(Shown, os)) == Map(Render, os)
    ensures Map(ReadShown, Map(Render, os)) == Map(Shown, os)
  {
    hide Render, RenderShown, ReadShown, Shown, WellFormed, Map;
    forall i | 0 <= i < |os|
      ensures RenderShown(Shown(os[i])) == Render(os[i])
      ensures ReadShown(Render(os[i])) == Shown(os[i])
    {
      ReadShownRender(os[i]);
    }
    MapMap(Shown, RenderShown, Render, os);
    MapMap(Render, ReadShown, Shown, os);
  }

  /** For any two texts at all: they print the same ownership exactly when they have the same multiset of node id
      and joined slots. */
  lemma SlotOwnershipIff(t1: string, t2: string)
    ensures SlotOwnership(t1) == SlotOwnership(t2) <==>
            multiset(Map(Shown, Owners(t1))) == multiset(Map(Shown, Owners(t2)))
  {
    hide SlotOwnership, Render, RenderShown, ReadShown, Shown, WellFormed;
    SameLines(t1, t2);
    OwnersWellFormed(SplitBy(t1, IsNewline));
    OwnersWellFormed(SplitBy(t2, IsNewline));
    ShownAll(Owners(t1));
    ShownAll(Owners(t2));
    if multiset(Map(Shown, Owners(t1))) == multiset(Map(Shown, Owners(t2))) {
      MapMultiset(RenderShown, Map(Shown, Owners(t1)), Map(Shown, Owners(t2)));
    }
    if multiset(Lines(t1)) == multiset(Lines(t2)) {
      MapMultiset(ReadShown, Lines(t1), Lines(t2));
    }
  }

  // ---- Texts with a given owner ----

  /** A column or token as CLUSTER NODES prints it. */
  ghost predicate IsWord(w: string) {
    w != [] && Free(w, IsSpace)
  }

  ghost predicate AreWords(ws: seq<string>) {
    forall i :: 0 <= i < |ws| ==> IsWord(ws[i])
  }

  /** A slot token that is not the marker of an open slot. */
  ghost predicate NotMarkers(ws: seq<string>) {
    forall i :: 0 <= i < |ws| ==> ws[i] != [] && ws[i][0] != '['
  }

  lemma {:induction false} WordsStay(ws: seq<string>)
    requires AreWords(ws)
    ensures NonEmpty(ws) == ws
  {
    if ws != [] {
      WordsStay(ws[1..]);
      assert [ws[0]] + ws[1..] == ws;
    }
  }

  lemma {:induction false} TokensStay(ws: seq<string>)
    requires NotMarkers(ws)
    ensures Unbracketed(ws) == ws
  {
    if ws != [] {
      TokensStay(ws[1..]);
      assert [ws[0]] + ws[1..] == ws;
    }
  }

  /** The text of one line: eight columns, then the slots. */
  function LineOf(cols: seq<string>, slots: seq<string>): string {
    Join(cols + slots, ' ')
  }

  /** What a line of eight columns and any tokens says. */
  lemma LineReads(cols: seq<string>, tokens: seq<string>)
    requires |cols| == 8 && AreWords(cols) && AreWords(tokens)
    ensures var slots := Unbracketed(tokens);
            Owners(LineOf(cols, tokens)) == if slots == [] then [] else [Owner(cols[0], slots)]
  {
    var words, line := cols + tokens, LineOf(cols, tokens);
    assert AreWords(words);
    WordsRead(words);
    assert words[8..] == tokens;
    OwnersOne(line);
  }

  lemma WordsRead(words: seq<string>)
    requires words != [] && AreWords(words)
    ensures Fields(Join(words, ' ')) == words && SplitBy(Join(words, ' '), IsNewline) == [Join(words, ' ')]
  {
    SplitJoin(words, ' ', IsSpace);
    WordsStay(words);
    forall i | 0 <= i < |words| ensures Free(words[i], IsNewline) { SpaceFreeNewlineFree(words[i]); }
    JoinFree(words, ' ', IsNewline);
    SplitFree(Join(words, ' '), IsNewline);
  }

  /** Printing a line and reading it back gives the owner it was printed for. */
  lemma LineOwner(cols: seq<string>, slots: seq<string>)
    requires |cols| == 8 && AreWords(cols) && slots != [] && AreWords(slots) && NotMarkers(slots)
    ensures Owners(LineOf(cols, slots)) == [Owner(cols[0], slots)]
  {
    LineReads(cols, slots);
    TokensStay(slots);
  }

  /** The marker of an open slot makes no difference, wherever it stands. */
  lemma MarkerIgnored(cols: seq<string>, a: seq<string>, marker: string, b: seq<string>)
    requires |cols| == 8 && AreWords(cols) && AreWords(a) && AreWords(b)
    requires IsWord(marker) && marker != [] && marker[0] == '['
    ensures Owners(LineOf(cols, a + [marker] + b)) == Owners(LineOf(cols, a + b))
  {
    hide Owners, LineOf, Unbracketed, IsWord;
    LineReads(cols, a + [marker] + b);
    LineReads(cols, a + b);
    WithoutMarker(a, marker, b);
  }

  lemma WithoutMarker(a: seq<string>, marker: string, b: seq<string>)
    requires marker != [] && marker[0] == '['
    ensures Unbracketed(a + [marker] + b) == Unbracketed(a + b)
  {
    UnbracketedAppend(a + [marker], b);
    UnbracketedAppend(a, [marker]);
    UnbracketedAppend(a, b);
    assert [marker][1..] == [] && Unbracketed([marker]) == [];
  }

  /** A line of at most eight columns has no owner. */
  lemma NoSlotsNoOwner(cols: seq<string>)
    requires 0 < |cols| <= 8 && AreWords(cols)
    ensures Owners(Join(cols, ' ')) == []
  {
    WordsRead(cols);
    OwnersOne(Join(cols, ' '));
  }

  lemma {:induction false} NonEmptyAppend(a: seq<string>, b: seq<string>)
    ensures NonEmpty(a + b) == NonEmpty(a) + NonEmpty(b)
  {
    if a == [] {
      assert a + b == b;
    } else {
      assert (a + b)[1..] == a[1..] + b;
      NonEmptyAppend(a[1..], b);
    }
  }

  /** White space separates fields, however much of it there is. */
  lemma FieldsAdd(a: string, c: char, b: string)
    requires IsSpace(c)
    ensures Fields(a + [c] + b) == Fields(a) + Fields(b)
  {
    hide IsSpace;
    SplitAppend(a, c, b, IsSpace);
    NonEmptyAppend(SplitBy(a, IsSpace), SplitBy(b, IsSpace));
  }

  /** What has no white space is one field, unless it is empty. */
  lemma FieldOf(w: string)
    requires Free(w, IsSpace)
    ensures Fields(w) == if w == [] then [] else [w]
  {
    SplitFree(w, IsSpace);
    assert [w][1..] == [];
    assert NonEmpty([w]) == if w == [] then [] else [w] + NonEmpty([]);
  }

  lemma {:induction false} SplitAppend(a: string, c: char, b: string, cut: char -> bool)
    requires cut(c)
    ensures SplitBy(a + [c] + b, cut) == SplitBy(a, cut) + SplitBy(b, cut)
  {
    var s := a + [c] + b;
    if a == [] {
      assert s[1..] == b;
    } else {
      assert s[1..] == a[1..] + [c] + b;
      SplitAppend(a[1..], c, b, cut);
    }
  }

  /** The owners of a text are those of its lines, in order. */
  lemma LinesAdd(t1: string, t2: string)
    ensures Owners(t1 + ['\n'] + t2) == Owners(t1) + Owners(t2)
  {
    SplitAppend(t1, '\n', t2, IsNewline);
    OwnersAppend(SplitBy(t1, IsNewline), SplitBy(t2, IsNewline));
  }

  /**
   A comma inside a token reads like one between tokens: whatever the other columns hold, the texts with the
   token "a,b" and with the tokens "a" and "b" name different owners and print the same ownership.
   */
  lemma CommaCollides(cols: seq<string>, a: string, b: string)
    requires |cols| == 8 && AreWords(cols) && AreWords([a, b]) && NotMarkers([a, b])
    ensures var t1, t2 := LineOf(cols, [a + [','] + b]), LineOf(cols, [a, b]);
            && SlotOwnership(t1) == SlotOwnership(t2)
            && multiset(Owners(t1)) != multiset(Owners(t2))
  {
    var one, two := [a + [','] + b], [a, b];
    assert IsWord(a) && IsWord(b) by { assert [a, b][0] == a && [a, b][1] == b; }
    assert a[0] != '[' by { assert [a, b][0] == a; }
    LineOwner(cols, one);
    LineOwner(cols, two);
    var o1, o2 := Owner(cols[0], one), Owner(cols[0], two);
    assert Join(two, ',') == a + [','] + b by {
      assert two[1..] == [b];
      assert Join([b], ',') == b;
    }
    assert Shown(o1) == Shown(o2);
    assert |one| != |two|;
    assert o1 != o2;
    OneEach(o1, o2);
    SlotOwnershipIff(LineOf(cols, one), LineOf(cols, two));
  }

  lemma OneEach(o1: Owner, o2: Owner)
    ensures Map(Shown, [o1]) == [Shown(o1)] && Map(Shown, [o2]) == [Shown(o2)]
    ensures o1 != o2 ==> multiset([o1]) != multiset([o2])
  {
    assert o1 in multiset([o1]);
  }

  /** Reordering the lines of the text changes nothing. */
  lemma LineOrderIrrelevant(t1: string, t2: string)
    requires multiset(SplitBy(t1, IsNewline)) == multiset(SplitBy(t2, IsNewline))
    ensures SlotOwnership(t1) == SlotOwnership(t2)
  {
    hide SlotOwnership, Render;
    OwnersPermuted(SplitBy(t1, IsNewline), SplitBy(t2, IsNewline));
    MapMultiset(Render, Owners(t1), Owners(t2));
    SameLines(t1, t2);
  }

  lemma {:induction false} OwnersWithout(lines: seq<string>, x: string)
    requires x in lines
    ensures multiset(OwnersOf(lines)) == multiset(OwnersOf(Without(lines, x))) + multiset(OwnersOf([x]))
  {
    OwnersOne(x);
    if lines[0] != x {
      OwnersWithout(lines[1..], x);
      var rest := Without(lines[1..], x);
      assert Without(lines, x) == [lines[0]] + rest;
      assert ([lines[0]] + rest)[1..] == rest;
    }
  }

  lemma {:induction false} OwnersPermuted(a: seq<string>, b: seq<string>)
    requires multiset(a) == multiset(b)
    ensures multiset(OwnersOf(a)) == multiset(OwnersOf(b))
    decreases |a|
  {
    if a == [] {
      assert |multiset(b)| == 0;
    } else {
      SameElements(a, b, a[0]);
      TailMultiset(a);
      assert a == [a[0]] + a[1..];
      OwnersWithout(b, a[0]);
      OwnersPermuted(a[1..], Without(b, a[0]));
      OwnersAppend([a[0]], a[1..]);
    }
  }
}
