/**
 * The currency list offered after "Others": `get_available_currencies` takes
 * the codes out of the rate file and sorts them, and `format_currency_list`
 * numbers them for the user, who answers with a number.
 */
module Currencies {
  import opened Wrappers
  import opened PyText
  import opened Exchange

  // ---------------------------------------------------------------------
  // Python's ordering of str values: lexicographic by code point.
  // ---------------------------------------------------------------------

  predicate StrLe(a: string, b: string)
    decreases |a|
  {
    |a| == 0 || (|b| > 0 && (a[0] < b[0] || (a[0] == b[0] && StrLe(a[1..], b[1..]))))
  }

  lemma {:induction false} StrLeReflexive(a: string)
    ensures StrLe(a, a)
    decreases |a|
  {
    if |a| > 0 {
      StrLeReflexive(a[1..]);
    }
  }

  lemma {:induction false} StrLeTotal(a: string, b: string)
    ensures StrLe(a, b) || StrLe(b, a)
    decreases |a|
  {
    if |a| > 0 && |b| > 0 && a[0] == b[0] {
      StrLeTotal(a[1..], b[1..]);
    }
  }

  lemma {:induction false} StrLeAntisymmetric(a: string, b: string)
    requires StrLe(a, b) && StrLe(b, a)
    ensures a == b
    decreases |a|
  {
    if |a| > 0 {
      StrLeAntisymmetric(a[1..], b[1..]);
      assert a == [a[0]] + a[1..] && b == [b[0]] + b[1..];
    }
  }

  lemma {:induction false} StrLeTransitive(a: string, b: string, c: string)
    requires StrLe(a, b) && StrLe(b, c)
    ensures StrLe(a, c)
    decreases |a|
  {
    if |a| > 0 && a[0] == b[0] && b[0] == c[0] {
      StrLeTransitive(a[1..], b[1..], c[1..]);
    }
  }

  predicate Sorted(s: seq<string>) {
    forall i, j :: 0 <= i < j < |s| ==> StrLe(s[i], s[j])
  }

  // ---------------------------------------------------------------------
  // `sorted()`, specified by an insertion sort: any sorted permutation is
  // this one (SortUnique), so the algorithm CPython uses does not matter.
  // ---------------------------------------------------------------------

  function Insert(x: string, s: seq<string>): (r: seq<string>)
    ensures multiset(r) == multiset(s) + multiset{x}
    decreases |s|
  {
    if s == [] || StrLe(x, s[0]) then [x] + s
    else
      assert s == [s[0]] + s[1..];
      [s[0]] + Insert(x, s[1..])
  }

  function Sort(s: seq<string>): (r: seq<string>)
    ensures multiset(r) == multiset(s)
    decreases |s|
  {
    if s == [] then []
    else
      assert s == [s[0]] + s[1..];
      Insert(s[0], Sort(s[1..]))
  }

  /** A sorted sequence stays sorted under a head no larger than any entry. */
  lemma ConsSorted(y: string, t: seq<string>)
    requires Sorted(t) && forall j :: 0 <= j < |t| ==> StrLe(y, t[j])
    ensures Sorted([y] + t)
  {
    var r := [y] + t;
    forall i, j | 0 <= i < j < |r| ensures StrLe(r[i], r[j]) {
      assert r[j] == t[j - 1];
      if i > 0 {
        assert r[i] == t[i - 1];
      }
    }
  }

  lemma BelowHead(x: string, s: seq<string>)
    requires Sorted(s) && (s == [] || StrLe(x, s[0]))
    ensures forall j :: 0 <= j < |s| ==> StrLe(x, s[j])
  {
    forall j | 0 <= j < |s| ensures StrLe(x, s[j]) {
      if j > 0 {
        StrLeTransitive(x, s[0], s[j]);
      }
    }
  }

  /** Everything in `Insert(x, t)` is at least `y` when `x` and all of `t` are. */
  lemma InsertAbove(y: string, x: string, t: seq<string>)
    requires StrLe(y, x) && forall j :: 0 <= j < |t| ==> StrLe(y, t[j])
    ensures forall j :: 0 <= j < |Insert(x, t)| ==> StrLe(y, Insert(x, t)[j])
  {
    var r := Insert(x, t);
    forall j | 0 <= j < |r| ensures StrLe(y, r[j]) {
      assert r[j] in multiset(r);
      if r[j] != x {
        assert r[j] in multiset(t);
        var k :| 0 <= k < |t| && t[k] == r[j];
      }
    }
  }

  lemma {:induction false} InsertSorted(x: string, s: seq<string>)
    requires Sorted(s)
    ensures Sorted(Insert(x, s))
    decreases |s|
  {
    if s == [] || StrLe(x, s[0]) {
      BelowHead(x, s);
      ConsSorted(x, s);
    } else {
      InsertSorted(x, s[1..]);
      StrLeTotal(x, s[0]);
      BelowHead(s[0], s[1..]);
      InsertAbove(s[0], x, s[1..]);
      ConsSorted(s[0], Insert(x, s[1..]));
    }
  }

  lemma {:induction false} SortSorted(s: seq<string>)
    ensures Sorted(Sort(s))
    decreases |s|
  {
    if s != [] {
      SortSorted(s[1..]);
      InsertSorted(s[0], Sort(s[1..]));
    }
  }

  lemma TailBag(a: seq<string>)
    requires a != []
    ensures multiset(a[1..]) == multiset(a) - multiset{a[0]}
  {
    assert a == [a[0]] + a[1..];
  }

  /** Sorted arrangements of the same non-empty bag start alike. */
  lemma SortedHeads(a: seq<string>, b: seq<string>)
    requires Sorted(a) && Sorted(b) && multiset(a) == multiset(b) && a != []
    ensures b != [] && a[0] == b[0]
  {
    assert a[0] in multiset(b) && b != [];
    assert b[0] in multiset(a);
    var i :| 0 <= i < |b| && b[i] == a[0];
    var j :| 0 <= j < |a| && a[j] == b[0];
    StrLeReflexive(a[0]);
    StrLeReflexive(b[0]);
    assert StrLe(b[0], a[0]) by { if i > 0 { assert StrLe(b[0], b[i]); } }
    assert StrLe(a[0], b[0]) by { if j > 0 { assert StrLe(a[0], a[j]); } }
    StrLeAntisymmetric(a[0], b[0]);
  }

  /** Two sorted arrangements of the same strings are the same sequence. */
  lemma {:induction false} SortUnique(a: seq<string>, b: seq<string>)
    requires Sorted(a) && Sorted(b) && multiset(a) == multiset(b)
    ensures a == b
    decreases |a|
  {
    if a != [] {
      SortedHeads(a, b);
      TailBag(a);
      TailBag(b);
      SortUnique(a[1..], b[1..]);
      assert a == [a[0]] + a[1..] && b == [b[0]] + b[1..];
    } else if b != [] {
      SortedHeads(b, a);
    }
  }

  /** The sort of any arrangement of a bag is sorted and holds the bag. */
  lemma SortIsSortedPermutation(s: seq<string>)
    ensures Sorted(Sort(s)) && multiset(Sort(s)) == multiset(s)
  {
    SortSorted(s);
  }

  // ---------------------------------------------------------------------
  // get_available_currencies
  // ---------------------------------------------------------------------

  /** The list offered when the file cannot be read. */
  const DefaultCurrencies: seq<string> := ["USD", "EUR", "AED"]

  /** `key.replace('_RUB', '')`: every occurrence is removed. */
  function CurrencyCode(key: string): string {
    RemoveAll(key, "_RUB")
  }

  /** What one key of the file contributes to the list. */
  function Entry(key: string): multiset<string> {
    if key == TimestampKey then multiset{} else multiset{CurrencyCode(key)}
  }

  /** The codes of a set of keys, as a bag (the file's key order is not
      modelled; the result is sorted anyway). */
  ghost function CodesOf(keys: set<string>): multiset<string>
    decreases |keys|
  {
    if keys == {} then multiset{}
    else
      var k :| k in keys;
      CodesOf(keys - {k}) + Entry(k)
  }

  /** CodesOf does not depend on the order in which keys are picked. */
  lemma {:induction false} CodesOfRemove(keys: set<string>, k: string)
    requires k in keys
    ensures CodesOf(keys) == CodesOf(keys - {k}) + Entry(k)
    decreases |keys|
  {
    var j :| j in keys && CodesOf(keys) == CodesOf(keys - {j}) + Entry(j);
    if j != k {
      CodesOfRemove(keys - {j}, k);
      CodesOfRemove(keys - {k}, j);
      assert keys - {j} - {k} == keys - {k} - {j};
    }
  }

  lemma {:induction false} CodesOfMembers(keys: set<string>, c: string)
    ensures c in CodesOf(keys) <==> exists k :: k in keys && k != TimestampKey && CurrencyCode(k) == c
    decreases |keys|
  {
    if keys != {} {
      var k :| k in keys;
      CodesOfRemove(keys, k);
      CodesOfMembers(keys - {k}, c);
      if c in CodesOf(keys) && !(c in CodesOf(keys - {k})) {
        assert k != TimestampKey && CurrencyCode(k) == c;
      }
      if c !in CodesOf(keys) {
        forall k' | k' in keys && k' != TimestampKey ensures CurrencyCode(k') != c {
          if k' != k {
            assert k' in keys - {k};
          }
        }
      }
    }
  }

  ghost function BagToSeq(b: multiset<string>): (s: seq<string>)
    ensures multiset(s) == b
    decreases |b|
  {
    if b == multiset{} then []
    else
      var x :| x in b;
      [x] + BagToSeq(b - multiset{x})
  }

  /** What get_available_currencies returns for a given state of the file. */
  ghost function AvailableCurrencies(file: Option<Record>): seq<string> {
    if file.None? then DefaultCurrencies
    else Sort(BagToSeq(CodesOf(file.value.Keys)))
  }

  /** The list read from a file is sorted and lists exactly the codes of the
      file's keys other than the timestamp, one per key. */
  lemma AvailableFromFile(rec: Record, c: string)
    ensures Sorted(AvailableCurrencies(Some(rec)))
    ensures multiset(AvailableCurrencies(Some(rec))) == CodesOf(rec.Keys)
    ensures c in AvailableCurrencies(Some(rec)) <==>
      exists k :: k in rec && k != TimestampKey && CurrencyCode(k) == c
  {
    SortIsSortedPermutation(BagToSeq(CodesOf(rec.Keys)));
    CodesOfMembers(rec.Keys, c);
    assert c in AvailableCurrencies(Some(rec)) <==> c in multiset(AvailableCurrencies(Some(rec)));
  }

  /** A key written by the rate update gives back the currency's code. */
  lemma {:induction false} CodeOfRateKey(code: string)
    requires forall i :: 0 <= i < |code| ==> IsAsciiLetter(code[i])
    ensures CurrencyCode(code + "_RUB") == code
    decreases |code|
  {
    if code == [] {
      assert code + "_RUB" == "_RUB";
      assert IsPrefix("_RUB", "_RUB");
      assert ("_RUB")[4..] == [];
    } else {
      var s := code + "_RUB";
      assert !IsPrefix("_RUB", s) by { assert s[0] == code[0]; }
      assert s[1..] == code[1..] + "_RUB";
      CodeOfRateKey(code[1..]);
      assert code == [code[0]] + code[1..];
    }
  }

  /** get_available_currencies, as the loop over the file's keys it is. */
  method GetAvailableCurrencies(file: Option<Record>) returns (r: seq<string>)
    ensures r == AvailableCurrencies(file)
  {
    if file.None? {
      return DefaultCurrencies;
    }
    var keys := file.value.Keys;
    var codes: seq<string> := [];
    while keys != {}
      invariant multiset(codes) + CodesOf(keys) == CodesOf(file.value.Keys)
      decreases |keys|
    {
      var k :| k in keys;
      CodesOfRemove(keys, k);
      if k != TimestampKey {
        codes := codes + [CurrencyCode(k)];
      }
      keys := keys - {k};
    }
    r := Sort(codes);
    SortOfCodes(codes, file.value);
  }

  /** Sorting the codes in whatever order they were collected gives the
      list AvailableCurrencies describes. */
  lemma SortOfCodes(codes: seq<string>, rec: Record)
    requires multiset(codes) == CodesOf(rec.Keys)
    ensures Sort(codes) == AvailableCurrencies(Some(rec))
  {
    SortIsSortedPermutation(codes);
    SortIsSortedPermutation(BagToSeq(CodesOf(rec.Keys)));
    SortUnique(Sort(codes), AvailableCurrencies(Some(rec)));
  }

  // ---------------------------------------------------------------------
  // format_currency_list
  // ---------------------------------------------------------------------

  /** `f"{i+1}. {currency}"` */
  function NumberedLine(i: nat, code: string): string {
    NatToString(i + 1) + ". " + code
  }

  function NumberedLines(cs: seq<string>): seq<string> {
    seq(|cs|, i requires 0 <= i < |cs| => NumberedLine(i, cs[i]))
  }

  /** `"\n".join(lines)` */
  function JoinLines(lines: seq<string>): string
    decreases |lines|
  {
    if lines == [] then ""
    else if |lines| == 1 then lines[0]
    else lines[0] + "\n" + JoinLines(lines[1..])
  }

  /** `s.split("\n")`, the inverse of JoinLines. */
  function SplitLines(s: string): (lines: seq<string>)
    ensures |lines| >= 1
    decreases |s|
  {
    if '\n' !in s then [s]
    else
      var i := FirstNewline(s);
      [s[..i]] + SplitLines(s[i + 1..])
  }

  function FirstNewline(s: string): (i: nat)
    requires '\n' in s
    ensures i < |s| && s[i] == '\n' && '\n' !in s[..i]
    decreases |s|
  {
    if s[0] == '\n' then 0
    else
      assert '\n' in s[1..] by { var k :| 0 <= k < |s| && s[k] == '\n'; assert s[1..][k - 1] == '\n'; }
      var j := FirstNewline(s[1..]);
      assert s[..j + 1] == [s[0]] + s[1..][..j];
      j + 1
  }

  predicate SingleLine(s: string) { '\n' !in s }

  /** The first newline of `a + "\n" + rest` is the one after `a`. */
  lemma {:induction false} FirstNewlineAfter(a: string, rest: string)
    requires SingleLine(a)
    ensures var s := a + "\n" + rest;
      '\n' in s && FirstNewline(s) == |a| && s[..|a|] == a && s[|a| + 1..] == rest
    decreases |a|
  {
    var s := a + "\n" + rest;
    assert s[|a|] == '\n' && s[..|a|] == a;
    if a != [] {
      assert s[0] == a[0];
      assert a[0] in a;
      assert s[1..] == a[1..] + "\n" + rest;
      FirstNewlineAfter(a[1..], rest);
    }
  }

  lemma {:induction false} SplitJoin(lines: seq<string>)
    requires |lines| >= 1
    requires forall i :: 0 <= i < |lines| ==> SingleLine(lines[i])
    ensures SplitLines(JoinLines(lines)) == lines
    decreases |lines|
  {
    if |lines| > 1 {
      var a, rest := lines[0], JoinLines(lines[1..]);
      var s := a + "\n" + rest;
      assert JoinLines(lines) == s;
      FirstNewlineAfter(a, rest);
      assert SplitLines(s) == [a] + SplitLines(rest);
      SplitJoin(lines[1..]);
      assert lines == [a] + lines[1..];
    }
  }

  /** The message sent after "Others": header, numbered list, footer. */
  function FormatCurrencyList(cs: seq<string>, english: bool): string {
    var header := if english then "Available currencies:\n\n" else "Доступные валюты:\n\n";
    var footer := if english then "\nPlease enter the number of your chosen currency:" else "\nВведите номер выбранной валюты:";
    header + JoinLines(NumberedLines(cs)) + footer
  }

  /** The list part of the message splits back into one line per currency,
      in order, each starting with the number that selects it. */
  lemma CurrencyListReadsBack(cs: seq<string>)
    requires |cs| >= 1
    requires forall i :: 0 <= i < |cs| ==> SingleLine(cs[i])
    ensures var lines := SplitLines(JoinLines(NumberedLines(cs)));
      |lines| == |cs| &&
      forall i :: 0 <= i < |cs| ==> lines[i] == NatToString(i + 1) + ". " + cs[i]
  {
    var lines := NumberedLines(cs);
    forall i | 0 <= i < |cs| ensures SingleLine(lines[i]) {
      var n := NatToString(i + 1);
      assert lines[i] == n + ". " + cs[i];
    }
    SplitJoin(lines);
  }
}
