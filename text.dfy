/**
 * The pieces of Go's `strings`, `path` and `strconv` packages that the
 * pipeline relies on: `strings.Split`, `strings.Join`, `path.Join` (without
 * the lexical cleaning step) and `strconv.Itoa`, each paired with the
 * inverse or the reference definition that says what it means.
 */
module Text {

  /** Position of the first occurrence of `c` in `s`. */
  function IndexOf(s: string, c: char): (i: nat)
    requires c in s
    ensures i < |s| && s[i] == c
    ensures c !in s[..i]
    decreases |s|
  {
    if s[0] == c then 0
    else
      assert s == [s[0]] + s[1..];
      var j := IndexOf(s[1..], c);
      assert s[..j + 1] == [s[0]] + s[1..][..j];
      j + 1
  }

  /** `strings.Split(s, [sep])`: the pieces between every occurrence of `sep`. */
  function Split(s: string, sep: char): (parts: seq<string>)
    ensures |parts| >= 1
    ensures forall k :: 0 <= k < |parts| ==> sep !in parts[k]
    ensures sep in s <==> |parts| >= 2
    decreases |s|
  {
    if sep in s then
      var i := IndexOf(s, sep);
      [s[..i]] + Split(s[i + 1..], sep)
    else
      [s]
  }

  /** The first piece of a split starts the text and ends at a separator or at the end. */
  lemma SplitHead(s: string, sep: char)
    ensures Split(s, sep)[0] <= s
    ensures |Split(s, sep)[0]| < |s| ==> s[|Split(s, sep)[0]|] == sep
  {
    if sep in s {
      var i := IndexOf(s, sep);
      assert Split(s, sep)[0] == s[..i];
    }
  }

  /** `strings.Join(parts, [sep])`. */
  function JoinWith(parts: seq<string>, sep: char): string
  {
    if |parts| == 0 then ""
    else if |parts| == 1 then parts[0]
    else parts[0] + [sep] + JoinWith(parts[1..], sep)
  }

  /** Gluing the pieces of a split back together gives the original text. */
  lemma {:induction false} JoinSplit(s: string, sep: char)
    ensures JoinWith(Split(s, sep), sep) == s
    decreases |s|
  {
    if sep in s {
      var i := IndexOf(s, sep);
      var p, t := s[..i], s[i + 1..];
      assert s == p + [sep] + t;
      var rest := Split(t, sep);
      assert Split(s, sep) == [p] + rest;
      JoinCons(p, rest, sep);
      JoinSplit(t, sep);
    }
  }

  /** Joining a piece in front of a non-empty list puts one separator after it. */
  lemma JoinCons(p: string, rest: seq<string>, sep: char)
    requires |rest| >= 1
    ensures JoinWith([p] + rest, sep) == p + [sep] + JoinWith(rest, sep)
  {
    assert ([p] + rest)[1..] == rest;
  }

  /** The first separator of `p + [sep] + t` sits right after `p` when `p` holds none. */
  lemma FirstSeparator(p: string, sep: char, t: string)
    requires sep !in p
    ensures sep in p + [sep] + t
    ensures IndexOf(p + [sep] + t, sep) == |p|
  {
    var s := p + [sep] + t;
    assert s[|p|] == sep;
    var i := IndexOf(s, sep);
    if i != |p| {
      assert false;
    }
  }

  /** Splitting `p + [sep] + t` cuts off `p` when `p` holds no separator. */
  lemma SplitCons(p: string, sep: char, t: string)
    requires sep !in p
    ensures Split(p + [sep] + t, sep) == [p] + Split(t, sep)
  {
    var s := p + [sep] + t;
    FirstSeparator(p, sep, t);
    assert s[..|p|] == p;
    assert s[|p| + 1..] == t;
  }

  /** Splitting a join of separator-free pieces gives back the pieces. */
  lemma {:induction false} SplitJoin(parts: seq<string>, sep: char)
    requires |parts| >= 1
    requires forall k :: 0 <= k < |parts| ==> sep !in parts[k]
    ensures Split(JoinWith(parts, sep), sep) == parts
  {
    if |parts| > 1 {
      var p, tail := parts[0], parts[1..];
      assert forall k :: 0 <= k < |tail| ==> sep !in tail[k] by {
        forall k | 0 <= k < |tail| ensures sep !in tail[k] {
          assert tail[k] == parts[k + 1];
        }
      }
      var t := JoinWith(tail, sep);
      assert JoinWith(parts, sep) == p + [sep] + t;
      SplitCons(p, sep, t);
      SplitJoin(tail, sep);
      assert parts == [p] + tail;
    } else {
      assert sep !in parts[0];
    }
  }

  /** Join distributes over concatenation of two non-empty lists of pieces. */
  lemma {:induction false} JoinWithAppend(a: seq<string>, b: seq<string>, sep: char)
    requires |a| >= 1 && |b| >= 1
    ensures JoinWith(a + b, sep) == JoinWith(a, sep) + [sep] + JoinWith(b, sep)
  {
    if |a| > 1 {
      assert (a + b)[1..] == a[1..] + b;
      JoinWithAppend(a[1..], b, sep);
    } else {
      assert (a + b)[1..] == b;
    }
  }

  // ---------------------------------------------------------------------
  // path.Join
  // ---------------------------------------------------------------------

  /** The elements of `elems` that are not the empty string, in order. */
  function NonEmpty(elems: seq<string>): (r: seq<string>)
    ensures forall k :: 0 <= k < |r| ==> r[k] != ""
    ensures |r| <= |elems|
  {
    if |elems| == 0 then []
    else if elems[0] == "" then NonEmpty(elems[1..])
    else [elems[0]] + NonEmpty(elems[1..])
  }

  /** The filter leaves nothing exactly when every element is empty. */
  lemma {:induction false} NonEmptyNone(elems: seq<string>)
    ensures NonEmpty(elems) == [] <==> forall k :: 0 <= k < |elems| ==> elems[k] == ""
  {
    if |elems| > 0 {
      NonEmptyNone(elems[1..]);
      assert forall k :: 1 <= k < |elems| ==> elems[k] == elems[1..][k - 1];
    }
  }

  lemma {:induction false} NonEmptyAppend(a: seq<string>, b: seq<string>)
    ensures NonEmpty(a + b) == NonEmpty(a) + NonEmpty(b)
  {
    if |a| > 0 {
      assert (a + b)[1..] == a[1..] + b;
      NonEmptyAppend(a[1..], b);
    } else {
      assert a + b == b;
    }
  }

  /**
   * `path.Join(elems...)`: the non-empty elements separated by '/'. Go's
   * version also cleans the result lexically (collapsing "//", removing "."
   * and ".." elements and trailing slashes); that step is not modelled.
   */
  function Join(elems: seq<string>): string
  {
    JoinWith(NonEmpty(elems), '/')
  }

  /** A join is empty exactly when every element is. */
  lemma {:induction false} JoinEmpty(elems: seq<string>)
    ensures Join(elems) == "" <==> NonEmpty(elems) == []
    ensures Join(elems) == "" <==> forall k :: 0 <= k < |elems| ==> elems[k] == ""
  {
    NonEmptyNone(elems);
    var ne := NonEmpty(elems);
    if |ne| == 1 {
      assert Join(elems) == ne[0];
    } else if |ne| > 1 {
      assert |Join(elems)| >= |ne[0]| + 1;
    }
  }

  /** Joining two non-empty elements puts exactly one '/' between them. */
  lemma Join2(a: string, b: string)
    requires a != "" && b != ""
    ensures Join([a, b]) == a + "/" + b
  {
    assert [a, b][1..] == [b];
    assert NonEmpty([b]) == [b];
    assert NonEmpty([a, b]) == [a, b];
    assert JoinWith([a, b], '/') == a + ['/'] + JoinWith([b], '/');
  }

  /** Joining three non-empty elements. */
  lemma Join3(a: string, b: string, c: string)
    requires a != "" && b != "" && c != ""
    ensures Join([a, b, c]) == a + "/" + b + "/" + c
  {
    assert [a, b, c][1..] == [b, c];
    assert [b, c][1..] == [c];
    assert NonEmpty([c]) == [c];
    assert NonEmpty([b, c]) == [b, c];
    assert NonEmpty([a, b, c]) == [a, b, c];
    assert JoinWith([b, c], '/') == b + ['/'] + JoinWith([c], '/');
    assert JoinWith([a, b, c], '/') == a + ['/'] + JoinWith([b, c], '/');
  }

  /** A nested join may be flattened into the enclosing one. */
  lemma Flatten(x: seq<string>, y: seq<string>, z: seq<string>)
    ensures Join(x + [Join(y)] + z) == Join(x + y + z)
  {
    NonEmptyAppend(x + [Join(y)], z);
    NonEmptyAppend(x, [Join(y)]);
    NonEmptyAppend(x + y, z);
    NonEmptyAppend(x, y);
    var nx, ny, nz := NonEmpty(x), NonEmpty(y), NonEmpty(z);
    assert NonEmpty(x + y + z) == nx + ny + nz;
    JoinEmpty(y);
    if ny == [] {
      assert NonEmpty([Join(y)]) == [];
      assert NonEmpty(x + [Join(y)] + z) == nx + nz;
      assert nx + ny + nz == nx + nz;
    } else {
      assert NonEmpty([Join(y)]) == [Join(y)];
      assert NonEmpty(x + [Join(y)] + z) == nx + [Join(y)] + nz;
      JoinAround(nx, ny, nz);
    }
  }

  /** Helper of `Flatten`: replacing a piece by its own join of non-empty pieces. */
  lemma JoinAround(a: seq<string>, b: seq<string>, c: seq<string>)
    requires |b| >= 1
    ensures JoinWith(a + [JoinWith(b, '/')] + c, '/') == JoinWith(a + b + c, '/')
  {
    var jb := JoinWith(b, '/');
    if |a| >= 1 && |c| >= 1 {
      JoinWithAppend(a, [jb] + c, '/');
      assert a + [jb] + c == a + ([jb] + c);
      JoinWithAppend([jb], c, '/');
      JoinWithAppend(a, b + c, '/');
      assert a + b + c == a + (b + c);
      JoinWithAppend(b, c, '/');
    } else if |a| >= 1 {
      assert c == [];
      assert a + [jb] + c == a + [jb];
      assert a + b + c == a + b;
      JoinWithAppend(a, [jb], '/');
      JoinWithAppend(a, b, '/');
    } else if |c| >= 1 {
      assert a + [jb] + c == [jb] + c;
      assert a + b + c == b + c;
      JoinWithAppend([jb], c, '/');
      JoinWithAppend(b, c, '/');
    } else {
      assert a + [jb] + c == [jb];
      assert a + b + c == b;
    }
  }

  // ---------------------------------------------------------------------
  // strconv.Itoa and its inverse
  // ---------------------------------------------------------------------

  predicate IsDigit(c: char)
  {
    '0' <= c <= '9'
  }

  function DigitChar(d: nat): (c: char)
    requires d < 10
    ensures IsDigit(c)
  {
    ['0', '1', '2', '3', '4', '5', '6', '7', '8', '9'][d]
  }

  /** Decimal digits of a natural number, most significant first, no leading zeros. */
  function NatToDecimal(n: nat): (s: string)
    ensures |s| >= 1
    ensures forall k :: 0 <= k < |s| ==> IsDigit(s[k])
    ensures s[0] == '0' <==> n == 0
    ensures n == 0 ==> s == "0"
  {
    if n < 10 then [DigitChar(n)] else NatToDecimal(n / 10) + [DigitChar(n % 10)]
  }

  /** `strconv.Itoa(n)`: decimal digits, preceded by '-' for a negative number. */
  function Itoa(n: int): (s: string)
    ensures |s| >= 1
    ensures forall k :: 0 <= k < |s| ==> IsDigit(s[k]) || (k == 0 && s[k] == '-')
    ensures s[0] == '0' ==> s == "0"
    ensures s[0] == '-' <==> n < 0
    ensures s[0] == '-' ==> |s| >= 2 && s[1] != '0'
  {
    if n < 0 then "-" + NatToDecimal(-n) else NatToDecimal(n)
  }

  /** Value of a string of decimal digits, read most significant first. */
  function DigitsValue(s: string): int
    requires forall k :: 0 <= k < |s| ==> IsDigit(s[k])
  {
    if |s| == 0 then 0 else DigitsValue(s[..|s| - 1]) * 10 + ((s[|s| - 1] as int) - ('0' as int))
  }

  /** The reading direction of `strconv.Atoi`, for the strings `Itoa` produces. */
  function Atoi(s: string): int
    requires forall k :: 0 <= k < |s| ==> IsDigit(s[k]) || (k == 0 && s[k] == '-')
  {
    if |s| > 0 && s[0] == '-' then -DigitsValue(s[1..]) else DigitsValue(s)
  }

  lemma {:induction false} DecimalRoundTrip(n: nat)
    ensures DigitsValue(NatToDecimal(n)) == n
  {
    var s := NatToDecimal(n);
    if n >= 10 {
      DecimalRoundTrip(n / 10);
      assert s[..|s| - 1] == NatToDecimal(n / 10);
      assert s[|s| - 1] == DigitChar(n % 10);
    }
  }

  /** `Itoa` loses nothing: reading its output back gives the number. */
  lemma ItoaRoundTrip(n: int)
    ensures Atoi(Itoa(n)) == n
  {
    if n < 0 {
      DecimalRoundTrip(-n);
      assert Itoa(n)[1..] == NatToDecimal(-n);
    } else {
      DecimalRoundTrip(n);
      assert IsDigit(Itoa(n)[0]);
    }
  }

  /** Different numbers have different decimal spellings. */
  lemma ItoaInjective(m: int, n: int)
    ensures Itoa(m) == Itoa(n) ==> m == n
  {
    ItoaRoundTrip(m);
    ItoaRoundTrip(n);
  }

  lemma ItoaExamples()
    ensures Itoa(0) == "0"
    ensures Itoa(256) == "256"
    ensures Itoa(1024) == "1024"
  {
    assert NatToDecimal(2) == "2";
    assert NatToDecimal(25) == "25";
    assert NatToDecimal(256) == "256";
    assert NatToDecimal(1) == "1";
    assert NatToDecimal(10) == "10";
    assert NatToDecimal(102) == "102";
    assert NatToDecimal(1024) == "1024";
  }
}
