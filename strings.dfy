/** The few Java string operations the core relies on: `String.join`,
    `String.split` on a single-character pattern, decimal printing of an `int`
    and `replaceAll` of one character by another. */
module Strings {

  import opened Optional

  type String = seq<char>

  /** `String.join(sep, xs)` and `Collectors.joining(sep)`. */
  function Join(xs: seq<String>, sep: String): String
  {
    if |xs| == 0 then "" else if |xs| == 1 then xs[0] else xs[0] + sep + Join(xs[1..], sep)
  }

  /** Every piece of `s` between occurrences of `c`, empty pieces included
      (Java's `split` with a negative limit). */
  function SplitAll(s: String, c: char): (parts: seq<String>)
    ensures |parts| >= 1
    ensures forall i :: 0 <= i < |parts| ==> c !in parts[i]
  {
    if |s| == 0 then [""]
    else if s[0] == c then [""] + SplitAll(s[1..], c)
    else var r := SplitAll(s[1..], c); [[s[0]] + r[0]] + r[1..]
  }

  /** Java's `s.split(regex)` for a regex matching the single character `c`:
      without a match the result is `[s]` itself; otherwise trailing empty
      pieces are removed (so a string made only of `c` yields no piece at all). */
  function JavaSplit(s: String, c: char): seq<String>
  {
    if c !in s then [s] else DropTrailingEmpty(SplitAll(s, c))
  }

  function DropTrailingEmpty(parts: seq<String>): (r: seq<String>)
    ensures |r| <= |parts| && r == parts[..|r|]
    ensures |r| > 0 ==> r[|r| - 1] != ""
  {
    if |parts| == 0 then []
    else if parts[|parts| - 1] == "" then DropTrailingEmpty(parts[..|parts| - 1])
    else parts
  }

  /** The last element of `qualifiedName.split("\\.")`, or None where Java's
      `importSplit[importSplit.length - 1]` would throw (an empty array). */
  function SimpleClassName(qualifiedName: String): (r: Option<String>)
    ensures r.Some? ==> '.' !in r.value
  {
    var parts := JavaSplit(qualifiedName, '.');
    if |parts| == 0 then None
    else
      assert '.' in qualifiedName ==> parts == SplitAll(qualifiedName, '.')[..|parts|];
      Some(parts[|parts| - 1])
  }

  /** `prefix` followed by each of `xs`. */
  function PrefixEach(prefix: String, xs: seq<String>): (r: seq<String>)
    ensures |r| == |xs|
    ensures forall i :: 0 <= i < |xs| ==> r[i] == prefix + xs[i]
  {
    seq(|xs|, i requires 0 <= i < |xs| => prefix + xs[i])
  }

  /** Splitting is a homomorphism from separator-joined strings to sequences of pieces. */
  lemma {:induction false} SplitAllAround(a: String, c: char, b: String)
    ensures SplitAll(a + [c] + b, c) == SplitAll(a, c) + SplitAll(b, c)
  {
    if |a| == 0 {
      assert a + [c] + b == [c] + b;
      assert ([c] + b)[1..] == b;
    } else {
      var s := a + [c] + b;
      assert s[1..] == a[1..] + [c] + b;
      SplitAllAround(a[1..], c, b);
    }
  }

  /** A prefix free of `c` is glued onto the first piece. */
  lemma {:induction false} SplitAllPrefix(x: String, c: char, s: String)
    requires c !in x
    ensures SplitAll(x + s, c) == [x + SplitAll(s, c)[0]] + SplitAll(s, c)[1..]
  {
    var r := SplitAll(s, c);
    if |x| == 0 {
      assert x + s == s;
      assert x + r[0] == r[0];
      assert [r[0]] + r[1..] == r;
    } else {
      assert (x + s)[1..] == x[1..] + s;
      SplitAllPrefix(x[1..], c, s);
      assert [x[0]] + (x[1..] + SplitAll(s, c)[0]) == x + SplitAll(s, c)[0];
    }
  }

  /** Splitting `Join(xs, [c] + t)` at `c` gives back `xs`, every piece but the
      first still carrying `t`. With `t` empty this is the round trip
      `SplitAll(Join(xs, [c]), c) == xs`; with `c, t = ',', " "` it reads the
      parameter list of a generated call back into its names. */
  lemma {:induction false} SplitJoin(xs: seq<String>, c: char, t: String)
    requires |xs| >= 1
    requires forall i :: 0 <= i < |xs| ==> c !in xs[i]
    requires c !in t
    ensures SplitAll(Join(xs, [c] + t), c) == [xs[0]] + PrefixEach(t, xs[1..])
  {
    var sep := [c] + t;
    if |xs| == 1 {
      SplitAllPrefix(xs[0], c, "");
      assert xs[0] + "" == xs[0];
    } else {
      var rest := xs[1..];
      assert forall i :: 0 <= i < |rest| ==> rest[i] == xs[i + 1];
      SplitJoin(rest, c, t);
      JoinCons(xs, c, t);
      SplitJoinStep(xs[0], c, t, Join(rest, sep));
      PrefixEachCons(t, rest);
    }
  }

  lemma JoinCons(xs: seq<String>, c: char, t: String)
    requires |xs| >= 2
    ensures Join(xs, [c] + t) == xs[0] + ([c] + (t + Join(xs[1..], [c] + t)))
  {
  }

  lemma PrefixEachCons(t: String, xs: seq<String>)
    requires |xs| >= 1
    ensures PrefixEach(t, xs) == [t + xs[0]] + PrefixEach(t, xs[1..])
  {
  }

  /** One separator of a join: the piece before it, then `t` glued onto the first piece after it. */
  lemma SplitJoinStep(x: String, c: char, t: String, j: String)
    requires c !in x && c !in t
    ensures SplitAll(x + ([c] + (t + j)), c) == [x] + ([t + SplitAll(j, c)[0]] + SplitAll(j, c)[1..])
  {
    SplitAllPrefix(x, c, [c] + (t + j));
    assert ([c] + (t + j))[1..] == t + j;
    SplitAllPrefix(t, c, j);
    assert x + "" == x;
  }

  /** A name without `c` is one piece. */
  lemma SplitAllNoSeparator(s: String, c: char)
    requires c !in s
    ensures SplitAll(s, c) == [s]
  {
    SplitAllPrefix(s, c, "");
    assert s + "" == s;
  }

  /** The simple name of `pkg + "." + name` is `name`, whatever `pkg` is. */
  lemma SimpleClassNameOfQualified(pkg: String, name: String)
    requires name != "" && '.' !in name
    ensures SimpleClassName(pkg + "." + name) == Some(name)
  {
    var q := pkg + "." + name;
    assert q == pkg + ['.'] + name;
    assert q[|pkg|] == '.';
    SplitAllAround(pkg, '.', name);
    SplitAllNoSeparator(name, '.');
    var all := SplitAll(q, '.');
    assert all[|all| - 1] == name;
    assert DropTrailingEmpty(all) == all;
  }

  /** A name made only of dots splits into nothing, and has no simple name. */
  lemma {:induction false} AllDotsHasNoSimpleName(q: String)
    requires q != []
    requires forall i :: 0 <= i < |q| ==> q[i] == '.'
    ensures SimpleClassName(q) == None
  {
    assert q[0] == '.';
    AllSeparatorsSplitEmpty(q, '.');
    AllEmptyDropped(SplitAll(q, '.'));
  }

  lemma {:induction false} AllSeparatorsSplitEmpty(s: String, c: char)
    requires forall i :: 0 <= i < |s| ==> s[i] == c
    ensures forall i :: 0 <= i < |SplitAll(s, c)| ==> SplitAll(s, c)[i] == ""
  {
    if |s| > 0 {
      AllSeparatorsSplitEmpty(s[1..], c);
    }
  }

  lemma {:induction false} AllEmptyDropped(parts: seq<String>)
    requires forall i :: 0 <= i < |parts| ==> parts[i] == ""
    ensures DropTrailingEmpty(parts) == []
  {
    if |parts| > 0 {
      AllEmptyDropped(parts[..|parts| - 1]);
    }
  }

  /** The decimal digit character for `d`. */
  function DigitChar(d: nat): (ch: char)
    requires d < 10
    ensures '0' <= ch <= '9' && ch as int - '0' as int == d
  {
    (('0' as int) + d) as char
  }

  /** Java's decimal printing of a non-negative `int`, as in `"vuegwt$hrc_" + n`. */
  function NatToString(n: nat): (s: String)
    ensures |s| >= 1
    ensures forall i :: 0 <= i < |s| ==> '0' <= s[i] <= '9'
  {
    if n < 10 then [DigitChar(n)] else NatToString(n / 10) + [DigitChar(n % 10)]
  }

  /** The value of a string of decimal digits. */
  function ParseDecimal(s: String): nat
    requires forall i :: 0 <= i < |s| ==> '0' <= s[i] <= '9'
  {
    if |s| == 0 then 0
    else ParseDecimal(s[..|s| - 1]) * 10 + (s[|s| - 1] as int - '0' as int)
  }

  /** Reading back a printed number gives the number. */
  lemma {:induction false} ParseNatToString(n: nat)
    ensures ParseDecimal(NatToString(n)) == n
  {
    if n >= 10 {
      ParseNatToString(n / 10);
      var s := NatToString(n);
      assert s[..|s| - 1] == NatToString(n / 10);
    }
  }

  /** Different numbers print differently. */
  lemma NatToStringInjective(m: nat, n: nat)
    requires m != n
    ensures NatToString(m) != NatToString(n)
  {
    ParseNatToString(m);
    ParseNatToString(n);
  }

  /** `s.replaceAll("\\.", "_")`. */
  function ReplaceDots(s: String): (r: String)
    ensures |r| == |s| && '.' !in r
    ensures forall i :: 0 <= i < |s| ==> r[i] == (if s[i] == '.' then '_' else s[i])
  {
    seq(|s|, i requires 0 <= i < |s| => if s[i] == '.' then '_' else s[i])
  }
}
