// Shared vocabulary of the registrar model: error-carrying results, the
// decimal conversions Go's fmt and strconv perform, and the handful of
// string operations (split, join, character replacement, ASCII case
// mapping) that the form codecs and formatters are built from.
module Common {

  datatype Option<T> = None | Some(value: T)

  /** A Go `(value, error)` pair: either a value or an error message. */
  datatype Result<T> = Ok(value: T) | Err(msg: string)
  {
    predicate IsFailure() { Err? }
  }

  // ---------------------------------------------------------------------
  // Decimal digits and Go's %d formatting

  predicate IsDigit(c: char) { '0' <= c <= '9' }

  predicate AllDigits(s: string) { forall i :: 0 <= i < |s| ==> IsDigit(s[i]) }

  function DigitChar(d: nat): (c: char)
    requires d < 10
    ensures IsDigit(c) && c as int - '0' as int == d
  {
    ('0' as int + d) as char
  }

  function DigitValue(c: char): (d: nat)
    requires IsDigit(c)
    ensures d < 10 && DigitChar(d) == c
  {
    c as int - '0' as int
  }

  /** What `fmt.Sprintf("%d", n)` prints for a non-negative n. */
  function NatToString(n: nat): (s: string)
    decreases n
  {
    if n < 10 then [DigitChar(n)] else NatToString(n / 10) + [DigitChar(n % 10)]
  }

  /** What `fmt.Sprintf("%d", i)` prints for any integer. */
  function IntToString(i: int): string
  {
    if i < 0 then "-" + NatToString(-i) else NatToString(i)
  }

  /** The value of a string of decimal digits, most significant first. */
  function DigitsValue(s: string): nat
    requires AllDigits(s)
    decreases |s|
  {
    if s == [] then 0 else DigitsValue(s[..|s| - 1]) * 10 + DigitValue(s[|s| - 1])
  }

  lemma DigitsValueShort(f: string)
    requires AllDigits(f) && 1 <= |f| <= 3
    ensures |f| == 1 ==> DigitsValue(f) == DigitValue(f[0])
    ensures |f| == 2 ==> DigitsValue(f) == DigitValue(f[0]) * 10 + DigitValue(f[1])
    ensures |f| == 3 ==> DigitsValue(f) == (DigitValue(f[0]) * 10 + DigitValue(f[1])) * 10 + DigitValue(f[2])
  {
    var p1 := f[..1];
    assert p1[..0] == [];
    assert DigitsValue(p1) == DigitValue(f[0]);
    if |f| >= 2 {
      var p2 := f[..2];
      assert p2[..1] == p1;
      assert DigitsValue(p2) == DigitValue(f[0]) * 10 + DigitValue(f[1]);
      if |f| == 3 {
        assert f[..2] == p2;
      } else {
        assert f == p2;
      }
    } else {
      assert f == p1;
    }
  }

  /** A decimal numeral without superfluous leading zeros. */
  predicate Canonical(s: string)
  {
    |s| >= 1 && AllDigits(s) && (s[0] == '0' ==> |s| == 1)
  }

  lemma {:induction false} NatToStringCanonical(n: nat)
    ensures Canonical(NatToString(n))
    ensures DigitsValue(NatToString(n)) == n
    decreases n
  {
    if n >= 10 {
      NatToStringCanonical(n / 10);
      var s := NatToString(n);
      assert s[..|s| - 1] == NatToString(n / 10);
    }
  }

  lemma {:induction false} CanonicalRoundTrip(s: string)
    requires Canonical(s)
    ensures NatToString(DigitsValue(s)) == s
    decreases |s|
  {
    if |s| > 1 {
      var p := s[..|s| - 1];
      assert Canonical(p);
      CanonicalRoundTrip(p);
      assert s == p + [s[|s| - 1]];
      assert p[0] != '0';
    }
  }

  lemma NatToStringInjective(m: nat, n: nat)
    requires NatToString(m) == NatToString(n)
    ensures m == n
  {
    NatToStringCanonical(m);
    NatToStringCanonical(n);
  }

  lemma NatToStringNoColon(n: nat)
    ensures forall i :: 0 <= i < |NatToString(n)| ==> IsDigit(NatToString(n)[i])
  {
    NatToStringCanonical(n);
  }

  // ---------------------------------------------------------------------
  // Go's strconv.ParseInt(s, 10, 64)

  const Int64Min: int := -0x8000_0000_0000_0000
  const Int64Max: int := 0x7FFF_FFFF_FFFF_FFFF

  predicate InInt64(i: int) { Int64Min <= i <= Int64Max }

  /** The digits after an optional sign. */
  function SignedBody(s: string): string
  {
    if s != [] && (s[0] == '+' || s[0] == '-') then s[1..] else s
  }

  /** The syntax strconv.ParseInt accepts in base 10: an optional sign and
      at least one digit. */
  predicate IntSyntax(s: string)
  {
    SignedBody(s) != [] && AllDigits(SignedBody(s))
  }

  /** The unbounded value of a string in IntSyntax. */
  function SyntaxValue(s: string): int
    requires IntSyntax(s)
  {
    var d: int := DigitsValue(SignedBody(s));
    if s[0] == '-' then 0 - d else d
  }

  /** strconv.ParseInt(s, 10, 64): an optional sign, then at least one
      decimal digit (leading zeros allowed), within the 64-bit range. */
  function ParseInt(s: string): (r: Option<int>)
    ensures r.Some? ==> InInt64(r.value)
    ensures r.Some? <==> IntSyntax(s) && InInt64(SyntaxValue(s))
  {
    if IntSyntax(s) && InInt64(SyntaxValue(s)) then Some(SyntaxValue(s)) else None
  }

  /** The value strconv.ParseInt returns alongside its error: 0 on a syntax
      error and the nearest 64-bit bound when the number is out of range. */
  function ParseIntValue(s: string): (v: int)
    ensures InInt64(v)
    ensures ParseInt(s).Some? ==> v == ParseInt(s).value
    ensures !IntSyntax(s) ==> v == 0
    ensures IntSyntax(s) && SyntaxValue(s) > Int64Max ==> v == Int64Max
    ensures IntSyntax(s) && SyntaxValue(s) < Int64Min ==> v == Int64Min
  {
    if !IntSyntax(s) then 0
    else if SyntaxValue(s) > Int64Max then Int64Max
    else if SyntaxValue(s) < Int64Min then Int64Min
    else SyntaxValue(s)
  }

  lemma ParseIntOfFormatted(i: int)
    requires InInt64(i)
    ensures ParseInt(IntToString(i)) == Some(i)
  {
    var n: nat := if i < 0 then -i else i;
    NatToStringCanonical(n);
    var s := IntToString(i);
    var digits := NatToString(n);
    if i < 0 {
      assert s == "-" + digits && s[0] == '-';
      assert SignedBody(s) == digits;
    } else {
      assert s == digits && IsDigit(s[0]);
      assert SignedBody(s) == digits;
    }
    assert IntSyntax(s);
    assert SyntaxValue(s) == i;
  }

  /** Every integer ParseInt accepts is written without a leading '+',
      and with canonical digits, by %d; ParseInt of such a text recovers
      the text. */
  lemma FormattedOfParsed(s: string)
    requires ParseInt(s).Some?
    requires Canonical(s)
    ensures IntToString(ParseInt(s).value) == s
  {
    CanonicalRoundTrip(s);
  }

  // ---------------------------------------------------------------------
  // strings.Split / strings.Join with a one-character separator

  predicate NoChar(s: string, c: char) { forall i :: 0 <= i < |s| ==> s[i] != c }

  /** strings.Split(s, string(sep)): the maximal pieces between separators;
      never empty, and [""] for the empty string. */
  function Split(s: string, sep: char): (r: seq<string>)
    ensures |r| >= 1
    ensures forall k :: 0 <= k < |r| ==> NoChar(r[k], sep)
    decreases |s|
  {
    if s == [] then [""]
    else if s[0] == sep then [""] + Split(s[1..], sep)
    else
      var t := Split(s[1..], sep);
      [[s[0]] + t[0]] + t[1..]
  }

  lemma {:induction false} SplitNoSeparator(s: string, sep: char)
    requires NoChar(s, sep)
    ensures Split(s, sep) == [s]
    decreases |s|
  {
    if s != [] {
      SplitNoSeparator(s[1..], sep);
      assert [s[0]] + s[1..] == s;
    }
  }

  /** strings.Join(parts, string(sep)). */
  function Join(parts: seq<string>, sep: char): string
    decreases |parts|
  {
    if parts == [] then ""
    else if |parts| == 1 then parts[0]
    else parts[0] + [sep] + Join(parts[1..], sep)
  }

  lemma {:induction false} JoinSplit(s: string, sep: char)
    ensures Join(Split(s, sep), sep) == s
    decreases |s|
  {
    if s != [] {
      JoinSplit(s[1..], sep);
      var t := Split(s[1..], sep);
      if s[0] != sep {
        if |t| == 1 {
          assert Join(t, sep) == t[0];
        } else {
          assert Join(t, sep) == t[0] + [sep] + Join(t[1..], sep);
          var r := [[s[0]] + t[0]] + t[1..];
          assert r[1..] == t[1..];
        }
      }
    }
  }

  lemma {:induction false} SplitJoin(parts: seq<string>, sep: char)
    requires |parts| >= 1
    requires forall k :: 0 <= k < |parts| ==> NoChar(parts[k], sep)
    ensures Split(Join(parts, sep), sep) == parts
    decreases |parts|, |parts[0]|
  {
    if |parts[0]| == 0 {
      if |parts| > 1 {
        SplitJoin(parts[1..], sep);
        assert Join(parts, sep) == [sep] + Join(parts[1..], sep);
        assert [""] + parts[1..] == parts;
      } else {
        assert Join(parts, sep) == "";
      }
    } else {
      var c := parts[0][0];
      assert c != sep;
      var rest := [parts[0][1..]] + parts[1..];
      assert NoChar(parts[0][1..], sep);
      forall k | 0 <= k < |rest| ensures NoChar(rest[k], sep) {
        if k > 0 { assert rest[k] == parts[k]; }
      }
      SplitJoin(rest, sep);
      assert rest[1..] == parts[1..];
      if |parts| == 1 {
        assert Join(parts, sep) == [c] + Join(rest, sep);
      } else {
        assert Join(parts, sep) == [c] + Join(rest, sep);
      }
      var s := Join(parts, sep);
      assert s[1..] == Join(rest, sep);
      var t := Split(s[1..], sep);
      assert t == rest;
      assert [c] + t[0] == parts[0];
      assert t[1..] == parts[1..];
      assert [[c] + t[0]] + t[1..] == parts;
    }
  }

  /** Splitting a text that starts with a separator-free field and a
      separator gives that field, then the split of the rest. */
  lemma {:induction false} SplitCons(a: string, rest: string, sep: char)
    requires NoChar(a, sep)
    ensures Split(a + [sep] + rest, sep) == [a] + Split(rest, sep)
    decreases |a|
  {
    if a == [] {
      assert [] + [sep] + rest == [sep] + rest;
      assert ([sep] + rest)[1..] == rest;
    } else {
      var s := a + [sep] + rest;
      assert s[1..] == a[1..] + [sep] + rest;
      SplitCons(a[1..], rest, sep);
      assert [a[0]] + a[1..] == a;
    }
  }

  /** Replacing the separator of a join of separator-free parts re-joins
      the parts with the new separator. */
  lemma {:induction false} ReplaceCharJoin(parts: seq<string>, from: char, to: char)
    requires forall k :: 0 <= k < |parts| ==> NoChar(parts[k], from)
    ensures ReplaceChar(Join(parts, from), from, to) == Join(parts, to)
    decreases |parts|
  {
    if |parts| == 1 {
      ReplaceCharAbsent(parts[0], from, to);
    } else if |parts| > 1 {
      ReplaceCharJoin(parts[1..], from, to);
      ReplaceCharAbsent(parts[0], from, to);
      ReplaceCharAppend(parts[0] + [from], Join(parts[1..], from), from, to);
      ReplaceCharAppend(parts[0], [from], from, to);
      assert ReplaceChar([from], from, to) == [to];
    }
  }

  /** The four-field separator-joined text used by the DS form codec. */
  lemma Join4(a: string, b: string, c: string, d: string, sep: char)
    ensures Join([a, b, c, d], sep) == a + [sep] + b + [sep] + c + [sep] + d
  {
    assert [a, b, c, d][1..] == [b, c, d];
    assert [b, c, d][1..] == [c, d];
    assert [c, d][1..] == [d];
    assert Join([c, d], sep) == c + [sep] + d;
    assert Join([b, c, d], sep) == b + [sep] + (c + [sep] + d);
    assert Join([a, b, c, d], sep) == a + [sep] + (b + [sep] + (c + [sep] + d));
  }

  lemma Join2(a: string, b: string, sep: char)
    ensures Join([a, b], sep) == a + [sep] + b
  {
    assert [a, b][1..] == [b];
  }

  // ---------------------------------------------------------------------
  // Character-level rewriting

  /** JavaScript's `s.replace(/x/g, y)` for one character x and one y. */
  function ReplaceChar(s: string, from: char, to: char): (r: string)
    ensures |r| == |s|
    ensures forall i :: 0 <= i < |s| ==> r[i] == if s[i] == from then to else s[i]
  {
    if s == [] then [] else [if s[0] == from then to else s[0]] + ReplaceChar(s[1..], from, to)
  }

  lemma ReplaceCharAppend(a: string, b: string, from: char, to: char)
    ensures ReplaceChar(a + b, from, to) == ReplaceChar(a, from, to) + ReplaceChar(b, from, to)
  {
    var l := ReplaceChar(a + b, from, to);
    var r := ReplaceChar(a, from, to) + ReplaceChar(b, from, to);
    assert |l| == |r|;
    forall i | 0 <= i < |l| ensures l[i] == r[i] {
      if i < |a| { assert (a + b)[i] == a[i]; } else { assert (a + b)[i] == b[i - |a|]; }
    }
  }

  lemma ReplaceCharAbsent(s: string, from: char, to: char)
    requires NoChar(s, from)
    ensures ReplaceChar(s, from, to) == s
  {
  }

  predicate IsLowerAscii(c: char) { 'a' <= c <= 'z' }
  predicate IsUpperAscii(c: char) { 'A' <= c <= 'Z' }
  predicate IsAsciiLetter(c: char) { IsLowerAscii(c) || IsUpperAscii(c) }
  predicate IsAlnum(c: char) { IsAsciiLetter(c) || IsDigit(c) }

  function UpperChar(c: char): char
  {
    if IsLowerAscii(c) then (c as int - 32) as char else c
  }

  /** strings.ToUpper over the ASCII letters. */
  function ToUpper(s: string): (r: string)
    ensures |r| == |s|
    ensures forall i :: 0 <= i < |s| ==> r[i] == UpperChar(s[i])
  {
    if s == [] then [] else [UpperChar(s[0])] + ToUpper(s[1..])
  }

  function LowerChar(c: char): char
  {
    if IsUpperAscii(c) then (c as int + 32) as char else c
  }

  /** strings.ToLower over the ASCII letters. */
  function ToLower(s: string): (r: string)
    ensures |r| == |s|
    ensures forall i :: 0 <= i < |s| ==> r[i] == LowerChar(s[i])
  {
    if s == [] then [] else [LowerChar(s[0])] + ToLower(s[1..])
  }

  predicate NoUpperAscii(s: string) { forall i :: 0 <= i < |s| ==> !IsUpperAscii(s[i]) }

  lemma ToLowerIdempotent(s: string)
    ensures NoUpperAscii(ToLower(s))
    ensures NoUpperAscii(s) ==> ToLower(s) == s
  {
  }

  predicate NoLowerAscii(s: string) { forall i :: 0 <= i < |s| ==> !IsLowerAscii(s[i]) }

  lemma ToUpperIdempotent(s: string)
    ensures NoLowerAscii(ToUpper(s))
    ensures NoLowerAscii(s) ==> ToUpper(s) == s
  {
  }

  /** strings.EqualFold over the ASCII letters. */
  predicate EqualFold(a: string, b: string)
  {
    ToUpper(a) == ToUpper(b)
  }

  // ---------------------------------------------------------------------
  // Prefixes, suffixes and membership

  predicate HasPrefix(s: string, p: string) { |p| <= |s| && s[..|p|] == p }
  predicate HasSuffix(s: string, p: string) { |p| <= |s| && s[|s| - |p|..] == p }

  predicate Contains(s: string, c: char) { exists i :: 0 <= i < |s| && s[i] == c }

  /** sub occurs in s starting at position i. */
  predicate OccursAt(s: string, sub: string, i: int)
  {
    0 <= i <= |s| - |sub| && s[i..i + |sub|] == sub
  }

  /** strings.LastIndex(s, sub): the last start position of sub in s, or -1. */
  function LastIndex(s: string, sub: string): (r: int)
    ensures -1 <= r && (r >= 0 ==> OccursAt(s, sub, r))
    ensures forall j :: r < j ==> !OccursAt(s, sub, j)
    decreases |s|
  {
    if |sub| > |s| then -1
    else if s[|s| - |sub|..] == sub then |s| - |sub|
    else
      var r := LastIndex(s[..|s| - 1], sub);
      assert forall j :: OccursAt(s[..|s| - 1], sub, j) <==> OccursAt(s, sub, j) && j < |s| - |sub| by {
        forall j ensures OccursAt(s[..|s| - 1], sub, j) <==> OccursAt(s, sub, j) && j < |s| - |sub| {
          if 0 <= j < |s| - |sub| { assert s[..|s| - 1][j..j + |sub|] == s[j..j + |sub|]; }
        }
      }
      r
  }

  // ---------------------------------------------------------------------
  // Comparing two lists of object IDs, as every Compare*Lists function does

  /** Every element of `a` occurs somewhere in `b`. */
  predicate IncludedIn<T(==)>(a: seq<T>, b: seq<T>)
  {
    forall i :: 0 <= i < |a| ==> a[i] in b
  }

  /** Equal length and mutual inclusion: the verdict of the list
      comparisons, which check counts and then look every ID up in the
      other list. */
  predicate SameIdLists<T(==)>(a: seq<T>, b: seq<T>)
  {
    |a| == |b| && IncludedIn(a, b) && IncludedIn(b, a)
  }

  /** The nested `found` loops: first each element of `a` is looked up in
      `b`, then each element of `b` in `a`, after the length check. */
  method CompareIdLists<T(==)>(a: seq<T>, b: seq<T>) returns (r: bool)
    ensures r <==> SameIdLists(a, b)
  {
    if |a| != |b| {
      return false;
    }
    r := LookUpAll(a, b);
    if !r {
      return;
    }
    r := LookUpAll(b, a);
  }

  /** One pass of the comparison: for each element of `a`, scan all of `b`
      (without stopping early) setting `found`. */
  method LookUpAll<T(==)>(a: seq<T>, b: seq<T>) returns (r: bool)
    ensures r <==> IncludedIn(a, b)
  {
    var i := 0;
    while i < |a|
      invariant 0 <= i <= |a|
      invariant forall k :: 0 <= k < i ==> a[k] in b
    {
      var found := false;
      var j := 0;
      while j < |b|
        invariant 0 <= j <= |b|
        invariant found <==> a[i] in b[..j]
      {
        if b[j] == a[i] {
          found := true;
        }
        assert b[..j + 1] == b[..j] + [b[j]];
        j := j + 1;
      }
      assert b[..j] == b;
      if !found {
        return false;
      }
      i := i + 1;
    }
    return true;
  }

  lemma SameIdListsSymmetric<T>(a: seq<T>, b: seq<T>)
    ensures SameIdLists(a, b) <==> SameIdLists(b, a)
  {
  }

  /** The comparison does not count multiplicities: two lists of the same
      length with the same IDs compare equal even when one repeats an ID
      the other holds once. */
  lemma SameIdListsIgnoresMultiplicity()
    ensures SameIdLists([1, 1, 2], [1, 2, 2])
    ensures multiset([1, 1, 2]) != multiset([1, 2, 2])
  {
    assert multiset([1, 1, 2])[1] == 2;
    assert multiset([1, 2, 2])[1] == 1;
  }

  // ---------------------------------------------------------------------
  // Newline-terminated lines, as the preview texts are built

  /** Each element followed by "\n", in order. */
  function Lines(items: seq<string>): string
  {
    if items == [] then "" else Lines(items[..|items| - 1]) + items[|items| - 1] + "\n"
  }

  /** The lines text is the items joined by newlines with an empty last
      line, so splitting it on newlines gives the items back. */
  lemma {:induction false} LinesIsJoin(items: seq<string>)
    ensures Lines(items) == Join(items + [""], '\n')
  {
    if items != [] {
      var init := items[..|items| - 1];
      var last := items[|items| - 1];
      LinesIsJoin(init);
      JoinSnoc(init, last, '\n');
      assert init + [last] == items;
    }
  }

  /** Join of a list with one more (final) empty part. */
  lemma {:induction false} JoinSnoc(init: seq<string>, last: string, sep: char)
    ensures Join(init + [last] + [""], sep) == Join(init + [""], sep) + last + [sep]
    decreases |init|
  {
    if init == [] {
      assert [last] + [""] == [last, ""];
      assert [last, ""][1..] == [""];
      assert [] + [""] == [""];
    } else {
      var t := init[1..];
      JoinSnoc(t, last, sep);
      assert (init + [last] + [""])[1..] == t + [last] + [""];
      assert (init + [""])[1..] == t + [""];
    }
  }

  lemma SplitLines(items: seq<string>)
    requires forall k :: 0 <= k < |items| ==> NoChar(items[k], '\n')
    ensures Split(Lines(items), '\n') == items + [""]
  {
    LinesIsJoin(items);
    var parts := items + [""];
    forall k | 0 <= k < |parts| ensures NoChar(parts[k], '\n') {
      if k < |items| { assert parts[k] == items[k]; }
    }
    SplitJoin(parts, '\n');
  }

  /** %d never writes a ':' (nor any character other than '-' and digits). */
  lemma IntToStringChars(i: int)
    ensures forall k :: 0 <= k < |IntToString(i)| ==> IsDigit(IntToString(i)[k]) || IntToString(i)[k] == '-'
  {
    var n: nat := if i < 0 then -i else i;
    NatToStringNoColon(n);
    if i < 0 {
      assert IntToString(i) == "-" + NatToString(n);
    }
  }

  /** %d writes a leading '-' exactly for a negative number. */
  lemma IntToStringSign(i: int)
    ensures |IntToString(i)| > 0
    ensures IntToString(i)[0] == '-' <==> i < 0
  {
    if i >= 0 {
      NatToStringNoColon(i);
    }
  }

  lemma IntToStringInjective(i: int, j: int)
    requires IntToString(i) == IntToString(j)
    ensures i == j
  {
    IntToStringSign(i);
    IntToStringSign(j);
    if i < 0 {
      assert IntToString(i)[1..] == NatToString(-i) && IntToString(j)[1..] == NatToString(-j);
      NatToStringInjective(-i, -j);
    } else {
      NatToStringInjective(i, j);
    }
  }

  // ---------------------------------------------------------------------
  // path.Join

  /** path.Join of two elements: an empty element is dropped, otherwise the
      two are joined with one '/'. The lexical clean-up that path.Join also
      does is not part of this model. */
  function PathJoin(a: string, b: string): (r: string)
    ensures a == "" ==> r == b
    ensures b == "" ==> r == a
    ensures a != "" && b != "" ==> HasPrefix(r, a + "/") && r[|a| + 1..] == b
  {
    if a == "" then b
    else if b == "" then a
    else
      var r := a + "/" + b;
      assert r[..|a| + 1] == a + "/";
      r
  }

  // ---------------------------------------------------------------------
  // The registrar server address of the command-line tools

  /** The registrar section of a tool's configuration. */
  datatype RegistrarConfig = RegistrarConfig(server: string, port: int, useHTTPS: bool)

  /** Config.GetConnectionURL: "<scheme>://server:port", https when useHTTPS is set. */
  function GetConnectionURL(c: RegistrarConfig): string
  {
    (if c.useHTTPS then "https" else "http") + "://" + c.server + ":" + IntToString(c.port)
  }

  /** The scheme is https exactly when the configuration asks for it, and the
      address ends with the server and the port in decimal. */
  lemma ConnectionURLParts(c: RegistrarConfig)
    ensures HasPrefix(GetConnectionURL(c), "https://") <==> c.useHTTPS
    ensures !c.useHTTPS ==> HasPrefix(GetConnectionURL(c), "http://")
    ensures HasSuffix(GetConnectionURL(c), c.server + ":" + IntToString(c.port))
  {
    var u := GetConnectionURL(c);
    var tail := c.server + ":" + IntToString(c.port);
    if c.useHTTPS {
      assert u == "https://" + tail;
      assert u[..8] == "https://";
    } else {
      assert u == "http://" + tail;
      assert u[..7] == "http://";
      assert |u| >= 8 ==> u[4] == ':';
    }
    assert u[|u| - |tail|..] == tail;
  }

  // ---------------------------------------------------------------------
  // strings.Trim and strings.TrimSpace

  /** The characters unicode.IsSpace accepts. */
  const SpaceChars: set<char> := {' ', '\t', '\n', '\U{000B}', '\U{000C}', '\r', '\U{0085}', '\U{00A0}',
    '\U{1680}', '\U{2000}', '\U{2001}', '\U{2002}', '\U{2003}', '\U{2004}', '\U{2005}', '\U{2006}', '\U{2007}',
    '\U{2008}', '\U{2009}', '\U{200A}', '\U{2028}', '\U{2029}', '\U{202F}', '\U{205F}', '\U{3000}'}

  function TrimLeft(s: string, cut: set<char>): (r: string)
    ensures |r| <= |s| && r == s[|s| - |r|..]
    ensures r == [] || r[0] !in cut
    decreases |s|
  {
    if s != [] && s[0] in cut then TrimLeft(s[1..], cut) else s
  }

  function TrimRight(s: string, cut: set<char>): (r: string)
    ensures |r| <= |s| && r == s[..|r|]
    ensures r == [] || r[|r| - 1] !in cut
    decreases |s|
  {
    if s != [] && s[|s| - 1] in cut then TrimRight(s[..|s| - 1], cut) else s
  }

  /** strings.Trim(s, cutset): the leading and trailing characters of the cut set removed. */
  function Trim(s: string, cut: set<char>): string
  {
    TrimRight(TrimLeft(s, cut), cut)
  }

  function TrimSpace(s: string): string
  {
    Trim(s, SpaceChars)
  }

  /** Trimming a text whose ends are kept changes nothing. */
  lemma TrimKeeps(s: string, cut: set<char>)
    requires s != [] && s[0] !in cut && s[|s| - 1] !in cut
    ensures Trim(s, cut) == s
  {
  }

  /** Trailing characters of the cut set are removed back to a kept character. */
  lemma {:induction false} TrimRightAppend(a: string, b: string, cut: set<char>)
    requires a != [] && a[|a| - 1] !in cut
    requires forall k :: 0 <= k < |b| ==> b[k] in cut
    ensures TrimRight(a + b, cut) == a
    decreases |b|
  {
    if b == [] {
      assert a + b == a;
    } else {
      assert (a + b)[..|a + b| - 1] == a + b[..|b| - 1];
      TrimRightAppend(a, b[..|b| - 1], cut);
    }
  }

  /** Trim of a text that starts with a kept character and ends with a
      kept character followed by characters of the cut set. */
  lemma TrimAppend(a: string, b: string, cut: set<char>)
    requires a != [] && a[0] !in cut && a[|a| - 1] !in cut
    requires forall k :: 0 <= k < |b| ==> b[k] in cut
    ensures Trim(a + b, cut) == a
  {
    assert (a + b)[0] == a[0];
    TrimRightAppend(a, b, cut);
  }

  // The values of one field of a submitted form, each split on spaces, as
  // the Parse*Sets and Parse*s helpers read them

  /** Every space-separated token of every value, in order. */
  function FormTokens(values: seq<string>): seq<string>
  {
    if values == [] then []
    else FormTokens(values[..|values| - 1]) + Split(values[|values| - 1], ' ')
  }

  lemma FormTokensSnoc(values: seq<string>, i: int)
    requires 0 <= i < |values|
    ensures FormTokens(values[..i + 1]) == FormTokens(values[..i]) + Split(values[i], ' ')
  {
    assert values[..i + 1][..i] == values[..i];
  }

  /** The next key a Go `range` over a map visits: any one not yet seen. */
  method AnyElement<T>(s: set<T>) returns (x: T)
    requires s != {}
    ensures x in s
  {
    x :| x in s;
  }

  /** Some position of an element of a sequence. */
  lemma IndexOf<T>(s: seq<T>, x: T) returns (j: int)
    requires x in s
    ensures 0 <= j < |s| && s[j] == x
  {
    j :| 0 <= j < |s| && s[j] == x;
  }
}
