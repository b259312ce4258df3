/** The text of an allocation list such as `5: 1-3,7`: how the control tool reads it and how it prints it. */
module IntervalText {
  import opened Types
  import opened Intervals

  // ---- Scanning (`strtol` and `sscanf` with `%d`) ----

  predicate Digit(c: char) {
    '0' <= c <= '9'
  }

  predicate Space(c: char) {
    c == ' ' || '\t' <= c <= '\r'
  }

  function DigitValue(c: char): nat
    requires Digit(c)
  {
    c as int - '0' as int
  }

  /** The first index from `i` on whose character does not satisfy `p`. */
  function Skip(s: string, p: char -> bool, i: nat): (e: nat)
    requires i <= |s|
    ensures i <= e <= |s| && (forall j :: i <= j < e ==> p(s[j])) && (e < |s| ==> !p(s[e]))
    decreases |s| - i
  {
    if i < |s| && p(s[i]) then Skip(s, p, i + 1) else i
  }

  /** The first `c` in the text, or its end. */
  function Find(s: string, c: char): (k: nat)
    ensures k <= |s| && c !in s[..k] && (k < |s| ==> s[k] == c)
  {
    Skip(s, (x: char) => x != c, 0)
  }

  ghost predicate AllDigits(s: string) {
    forall i :: 0 <= i < |s| ==> Digit(s[i])
  }

  function Decimal(s: string): nat
    requires forall i :: 0 <= i < |s| ==> Digit(s[i])
  {
    if s == [] then 0 else 10 * Decimal(s[..|s| - 1]) + DigitValue(s[|s| - 1])
  }

  datatype Scan = NoNumber | Number(value: int, end: nat)

  /** White space, a sign, and at least one digit. */
  function ScanInt(s: string): (r: Scan)
    ensures r.Number? ==> r.end <= |s|
  {
    var i := Skip(s, Space, 0);
    var j := if i < |s| && (s[i] == '-' || s[i] == '+') then i + 1 else i;
    var e := Skip(s, Digit, j);
    if e == j then NoNumber
    else
      var n: int := Decimal(s[j..e]);
      Number(if s[i] == '-' then -n else n, e)
  }

  // ---- Reading a list ----

  /** `get_id`: text without a number counts as 0, and 0 has to be written with the digit first. */
  function GetId(s: string, maxId: u16): Option<u16> {
    var n := ScanInt(s);
    var id := if n.Number? then n.value else 0;
    if id < 0 || id > maxId || (id == 0 && (s == "" || s[0] != '0')) then None else Some(id)
  }

  /** One item: a number, then whatever is not a digit, then perhaps a second number; or `*` after blanks. */
  function ItemOf(t: string): Item {
    var a := ScanInt(t);
    if a.NoNumber? || a.value < 0 then
      var k := Skip(t, (c: char) => c == ' ' || c == '\t', 0);
      if k < |t| && t[k] == '*' then Star else Malformed
    else
      var k := Skip(t, (c: char) => !Digit(c), a.end);
      if k == |t| then Range(a.value, a.value)
      else
        var b := ScanInt(t[k..]);
        if b.NoNumber? || b.value < 0 then Malformed else Range(a.value, b.value)
  }

  /** The items between commas; there is always at least one. */
  function ItemsIn(list: string): (r: seq<Item>)
    ensures r != []
    decreases |list|
  {
    var k := Find(list, ',');
    if k == |list| then [ItemOf(list)] else [ItemOf(list[..k])] + ItemsIn(list[k + 1..])
  }

  /** What the text assigns: the value before the colon and the items after it. */
  function Parsed(str: string, maxValue: u16): Option<(u16, seq<Item>)> {
    var k := Find(str, ':');
    if k == |str| then None
    else
      var value := GetId(str[..k], maxValue);
      if value.None? then None else Some((value.value, ItemsIn(str[k + 1..])))
  }

  /** The loops that cut the list at its commas. */
  method CutItems(list: string) returns (items: seq<Item>)
    ensures items == ItemsIn(list)
  {
    items := [];
    var rest, done := list, false;
    while !done
      invariant if done then items == ItemsIn(list) else items + ItemsIn(rest) == ItemsIn(list)
      decreases !done, |rest|
    {
      var next := ToNext(rest, ',');
      items := items + [ItemOf(rest[..next])];
      if next == |rest| {
        assert rest[..next] == rest;
        done := true;
      } else {
        rest := rest[next + 1..];
      }
    }
  }

  method ToNext(s: string, c: char) returns (k: nat)
    ensures k == Find(s, c)
  {
    k := 0;
    while k < |s| && s[k] != c
      invariant k <= |s| && Find(s, c) == Skip(s, (x: char) => x != c, k)
    {
      k := k + 1;
    }
  }

  /** `ParseList`. */
  method ParseList(str: string, table: array<u16>, lo: nat, max: nat, maxValue: u16) returns (ok: bool)
    requires table.Length == max + 1 && lo <= 1
    modifies table
    ensures var p := Parsed(str, maxValue);
            && (ok <==> p.Some? && forall k :: 0 <= k < |p.value.1| ==> GoodItem(p.value.1[k], lo, max))
            && table[..] == if p.None? then old(table[..])
                            else AppliedAll(old(table[..]), p.value.1, lo, max, maxValue, p.value.0)
  {
    var colon := ToNext(str, ':');
    if colon == |str| { return false; }
    var value := GetId(str[..colon], maxValue);
    if value.None? { return false; }
    var items := CutItems(str[colon + 1..]);
    ok := AssignItems(value.value, items, table, lo, max, maxValue);
  }

  // ---- Printing ----

  function DigitChar(n: nat): (c: char)
    requires n < 10
    ensures Digit(c) && DigitValue(c) == n
  {
    '0' + n as char
  }

  /** `%u`. */
  function Print(n: nat): (s: string)
    ensures s != "" && forall i :: 0 <= i < |s| ==> Digit(s[i])
  {
    if n < 10 then [DigitChar(n)] else Print(n / 10) + [DigitChar(n % 10)]
  }

  function RunText(v: Interval): string {
    if v.first < v.last then Print(v.first) + "-" + Print(v.last) else Print(v.first)
  }

  /** The runs of a line, with a comma between them. */
  function RunsText(runs: seq<Interval>): string {
    if runs == [] then "" else if |runs| == 1 then RunText(runs[0]) else RunText(runs[0]) + "," + RunsText(runs[1..])
  }

  /** A line of the display, without its label. */
  function LineText(line: Line): string {
    Print(line.value) + ": " + RunsText(line.runs)
  }

  // ---- What is printed is read back ----

  lemma {:induction false} DecimalOfPrint(n: nat)
    ensures Decimal(Print(n)) == n
  {
    if n >= 10 {
      DecimalOfPrint(n / 10);
      var s := Print(n);
      assert s[..|s| - 1] == Print(n / 10);
    } else {
      assert Print(n)[..0] == [];
    }
  }

  lemma {:induction false} SkipIs(s: string, p: char -> bool, i: nat, e: nat)
    requires i <= e <= |s| && (forall j :: i <= j < e ==> p(s[j])) && (e < |s| ==> !p(s[e]))
    ensures Skip(s, p, i) == e
    decreases e - i
  {
    if i < e { SkipIs(s, p, i + 1, e); }
  }

  /** Digits are scanned, after blanks and up to the first character that is not a digit. */
  lemma ScanAt(s: string, i: nat, e: nat)
    requires i < e <= |s| && (forall j :: 0 <= j < i ==> s[j] == ' ') && (forall j :: i <= j < e ==> Digit(s[j]))
    requires e < |s| ==> !Digit(s[e])
    ensures ScanInt(s) == Number(Decimal(s[i..e]), e)
  {
    assert Digit(s[i]);
    SkipIs(s, Space, 0, i);
    SkipIs(s, Digit, i, e);
  }

  lemma ScanOfDigits(p: string, blank: nat, rest: string)
    requires AllDigits(p) && p != "" && (rest != "" ==> !Digit(rest[0]))
    ensures ScanInt(Blanks(blank) + p + rest) == Number(Decimal(p), blank + |p|)
  {
    var s, e := Blanks(blank) + p + rest, blank + |p|;
    assert s[blank..e] == p && s[..blank] == Blanks(blank) && s[e..] == rest;
    forall j | 0 <= j < blank
      ensures s[j] == ' '
    {
      assert s[j] == s[..blank][j];
    }
    forall j | blank <= j < e
      ensures Digit(s[j])
    {
      assert s[j] == s[blank..e][j - blank];
    }
    assert e < |s| ==> s[e] == s[e..][0];
    ScanAt(s, blank, e);
  }

  lemma PlainNumber(p: string)
    requires AllDigits(p) && p != ""
    ensures ScanInt(p) == Number(Decimal(p), |p|)
  {
    ScanOfDigits(p, 0, "");
    assert Blanks(0) + p + "" == p;
  }

  function Blanks(n: nat): (s: string)
    ensures |s| == n && forall i :: 0 <= i < n ==> s[i] == ' '
  {
    seq(n, i => ' ')
  }

  lemma OneNumber(t: string, a: nat)
    requires ScanInt(t) == Number(a, |t|)
    ensures ItemOf(t) == Range(a, a)
  {
  }

  lemma TwoNumbers(t: string, a: nat, e: nat, b: nat, rest: string)
    requires e < |t| && ScanInt(t) == Number(a, e) && t[e] == '-' && t[e + 1..] == rest
    requires rest != "" && Digit(rest[0]) && ScanInt(rest) == Number(b, |rest|)
    ensures ItemOf(t) == Range(a, b)
  {
    assert t[e + 1] == rest[0];
    SkipIs(t, (c: char) => !Digit(c), e, e + 1);
  }

  lemma OneNumberItem(p: string, blank: nat)
    requires AllDigits(p) && p != ""
    ensures ItemOf(Blanks(blank) + p) == Range(Decimal(p), Decimal(p))
  {
    ScanOfDigits(p, blank, "");
    assert Blanks(blank) + p + "" == Blanks(blank) + p;
    OneNumber(Blanks(blank) + p, Decimal(p));
  }

  lemma TwoNumbersItem(p: string, q: string, blank: nat)
    requires AllDigits(p) && p != "" && AllDigits(q) && q != ""
    ensures ItemOf(Blanks(blank) + (p + "-" + q)) == Range(Decimal(p), Decimal(q))
  {
    var t, e := Blanks(blank) + p + ("-" + q), blank + |p|;
    ScanOfDigits(p, blank, "-" + q);
    PlainNumber(q);
    Joined(Blanks(blank), p, q);
    TwoNumbers(t, Decimal(p), e, Decimal(q), q);
  }

  lemma Joined(a: string, p: string, q: string)
    ensures var t, e := a + p + ("-" + q), |a| + |p|;
            t == a + (p + "-" + q) && e < |t| && t[e] == '-' && t[e + 1..] == q
  {
  }

  lemma ItemOfRun(v: Interval, blank: nat)
    requires v.first <= v.last
    ensures ItemOf(Blanks(blank) + RunText(v)) == Range(v.first, v.last)
  {
    DecimalOfPrint(v.first);
    DecimalOfPrint(v.last);
    if v.first < v.last {
      TwoNumbersItem(Print(v.first), Print(v.last), blank);
    } else {
      OneNumberItem(Print(v.first), blank);
    }
  }

  /** A text without the character is skipped as a whole. */
  lemma FindIn(s: string, c: char, rest: string)
    requires c !in s && (rest != "" ==> rest[0] == c)
    ensures Find(s + rest, c) == |s|
  {
    var all := s + rest;
    forall j | 0 <= j < |s|
      ensures all[j] != c
    {
      assert all[j] == s[j] && s[j] in s;
    }
    SkipIs(all, (x: char) => x != c, 0, |s|);
  }

  lemma PlainRun(v: Interval, blank: nat, c: char)
    requires c == ',' || c == ':'
    ensures c !in Blanks(blank) + RunText(v)
  {
    assert c !in Print(v.first) && c !in Print(v.last);
  }

  lemma FirstItem(one: string, rest: string)
    requires ',' !in one
    ensures ItemsIn(one + ("," + rest)) == [ItemOf(one)] + ItemsIn(rest)
    ensures ItemsIn(one) == [ItemOf(one)]
  {
    var list := one + ("," + rest);
    FindIn(one, ',', "," + rest);
    assert list[..|one|] == one && list[|one| + 1..] == rest;
    FindIn(one, ',', "");
    assert one + "" == one;
  }

  lemma MoreItems(a: string, b: string, rest: string)
    requires ',' !in a + b
    ensures ItemsIn(a + (b + "," + rest)) == [ItemOf(a + b)] + ItemsIn(rest)
  {
    FirstItem(a + b, rest);
    Regroup(a, b, rest);
  }

  lemma Regroup(a: string, b: string, c: string)
    ensures a + (b + "," + c) == a + b + ("," + c)
  {
  }

  lemma ItemsUnfold(runs: seq<Interval>)
    requires runs != []
    ensures ItemsOf(runs) == [Range(runs[0].first, runs[0].last)] + ItemsOf(runs[1..])
  {
  }

  lemma {:induction false} ItemsOfRuns(runs: seq<Interval>, blank: nat)
    requires runs != [] && forall k :: 0 <= k < |runs| ==> runs[k].first <= runs[k].last
    ensures ItemsIn(Blanks(blank) + RunsText(runs)) == ItemsOf(runs)
    decreases |runs|
  {
    PlainRun(runs[0], blank, ',');
    ItemOfRun(runs[0], blank);
    ItemsUnfold(runs);
    if |runs| > 1 {
      var rest := RunsText(runs[1..]);
      ItemsOfRuns(runs[1..], 0);
      assert Blanks(0) + rest == rest;
      MoreItems(Blanks(blank), RunText(runs[0]), rest);
    } else {
      FirstItem(Blanks(blank) + RunText(runs[0]), "");
    }
  }

  lemma ParsedAtColon(head: string, list: string, maxValue: u16)
    requires ':' !in head && GetId(head, maxValue).Some?
    ensures Parsed(head + (":" + list), maxValue) == Some((GetId(head, maxValue).value, ItemsIn(list)))
  {
    var str := head + (":" + list);
    FindIn(head, ':', ":" + list);
    assert str[..|head|] == head && str[|head| + 1..] == list;
  }

  lemma PrintedId(n: u16, maxId: u16)
    requires n <= maxId
    ensures GetId(Print(n), maxId) == Some(n)
  {
    PlainNumber(Print(n));
    DecimalOfPrint(n);
  }

  /** A printed line is read back as its value and its runs. */
  lemma LineRoundTrip(line: Line, maxValue: u16)
    requires line.runs != [] && line.value <= maxValue
    requires forall k :: 0 <= k < |line.runs| ==> line.runs[k].first <= line.runs[k].last
    ensures Parsed(LineText(line), maxValue) == Some((line.value, ItemsOf(line.runs)))
  {
    var head, runs := Print(line.value), RunsText(line.runs);
    PrintedId(line.value, maxValue);
    ParsedAtColon(head, Blanks(1) + runs, maxValue);
    ItemsOfRuns(line.runs, 1);
    LineOf(head, runs);
  }

  lemma LineOf(head: string, runs: string)
    ensures head + (":" + (Blanks(1) + runs)) == head + ": " + runs
  {
  }

  /** The table after all texts have been given to `ParseList` in turn. */
  function ReplayedTexts(a: seq<u16>, texts: seq<string>, lo: nat, max: nat, maxValue: u16): (r: seq<u16>)
    ensures |r| == |a|
    decreases |texts|
  {
    if texts == [] then a
    else
      var p := Parsed(texts[0], maxValue);
      var b := if p.None? then a else AppliedAll(a, p.value.1, lo, max, maxValue, p.value.0);
      ReplayedTexts(b, texts[1..], lo, max, maxValue)
  }

  function Texts(lines: seq<Line>): (r: seq<string>)
    ensures |r| == |lines|
  {
    seq(|lines|, k requires 0 <= k < |lines| => LineText(lines[k]))
  }

  lemma {:induction false} TextsReplay(a: seq<u16>, lines: seq<Line>, t: seq<u16>, lo: nat, max: nat, maxValue: u16)
    requires max + 1 <= |t| && forall k :: 0 <= k < |lines| ==> LineFits(lines[k], t, lo, max + 1, maxValue)
    ensures ReplayedTexts(a, Texts(lines), lo, max, maxValue) == Replayed(a, lines, lo, max, maxValue)
    decreases |lines|
  {
    if lines != [] {
      var line := lines[0];
      assert LineFits(line, t, lo, max + 1, maxValue);
      forall k | 0 <= k < |line.runs|
        ensures line.runs[k].first <= line.runs[k].last
      {
        assert MaximalRun(line.runs[k], t, lo, max + 1, line.value);
      }
      LineRoundTrip(line, maxValue);
      assert Texts(lines)[0] == LineText(line) && Texts(lines)[1..] == Texts(lines[1..]);
      TextsReplay(AppliedAll(a, ItemsOf(line.runs), lo, max, maxValue, line.value), lines[1..], t, lo, max, maxValue);
    }
  }

  /** The texts of a display, read by the tool onto an empty table, restore the displayed table, except for values that
      are too large. */
  lemma TextsRestore(lines: seq<Line>, t: seq<u16>, lo: nat, max: nat, maxValue: u16)
    requires max + 1 <= |t| && Displays(lines, t, lo, max + 1, maxValue)
    ensures var r := ReplayedTexts(seq(max + 1, i => NONE), Texts(lines), lo, max, maxValue);
            forall i :: 0 <= i <= max ==> r[i] == if lo <= i && t[i] <= maxValue then t[i] else NONE
  {
    TextsReplay(seq(max + 1, i => NONE), lines, t, lo, max, maxValue);
    ReplayRestores(lines, t, lo, max, maxValue);
  }
}
