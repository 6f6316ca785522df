/** Allowed-domain patterns of an API key, as both brokers match them, and what the string
    tests mean for dot-separated labels.  Hosts are taken as already extracted from the origin;
    characters are ASCII. */
module Domains {

  predicate IsSpace(c: char) {
    c == ' ' || '\t' <= c <= '\r'
  }

  function TrimLeft(s: string): string {
    if s != "" && IsSpace(s[0]) then TrimLeft(s[1..]) else s
  }

  function TrimRight(s: string): string {
    if s != "" && IsSpace(s[|s| - 1]) then TrimRight(s[..|s| - 1]) else s
  }

  function Trim(s: string): string { TrimRight(TrimLeft(s)) }

  function LowerChar(c: char): char {
    if 'A' <= c <= 'Z' then c - 'A' + 'a' else c
  }

  function Lower(s: string): (r: string)
    ensures |r| == |s|
    ensures forall i :: 0 <= i < |s| ==> r[i] as int == s[i] as int + if 'A' <= s[i] <= 'Z' then 32 else 0
  {
    seq(|s|, i requires 0 <= i < |s| => LowerChar(s[i]))
  }

  /** Trimming and lowercasing, as both brokers apply them to a pattern. */
  function Norm(s: string): string { Lower(Trim(s)) }

  predicate HasSuffix(s: string, t: string) {
    |t| <= |s| && s[|s| - |t|..] == t
  }

  /** MatchDomainPattern of the Go broker. */
  predicate MatchPattern(pattern: string, host: string) {
    var p, h := Norm(pattern), Norm(host);
    p == h || ("*." <= p && (HasSuffix(h, p[1..]) || h == p[2..]))
  }

  /** One round of the Elixir broker's Enum.any?. */
  predicate ElixirMatchOne(pattern: string, host: string) {
    var p, h := Norm(pattern), Lower(host);
    if p == "*" then true
    else if p == h then true
    else if "*." <= p then HasSuffix(h, p[1..]) || h == p[2..]
    else false
  }

  predicate GoAllows(domains: seq<string>, host: string) {
    host != "" && exists i :: 0 <= i < |domains| && (domains[i] == "*" || MatchPattern(domains[i], host))
  }

  predicate ElixirAllows(domains: seq<string>, host: string) {
    exists i :: 0 <= i < |domains| && ElixirMatchOne(domains[i], host)
  }

  /** The Go broker's search over a key's patterns. */
  method MatchesDomain(domains: seq<string>, host: string) returns (ok: bool)
    ensures ok <==> host != ""
                    && exists i :: 0 <= i < |domains| && (domains[i] == "*" || MatchPattern(domains[i], host))
  {
    if host == "" {
      return false;
    }
    for n := 0 to |domains|
      invariant forall i :: 0 <= i < n ==> domains[i] != "*" && !MatchPattern(domains[i], host)
    {
      if domains[n] == "*" {
        return true;
      }
      if MatchPattern(domains[n], host) {
        return true;
      }
    }
    return false;
  }

  // ---- Labels ----

  function Labels(s: string): (r: seq<string>)
    ensures |r| >= 1
  {
    if s == "" then [""]
    else Cons(s[0], Labels(s[1..]))
  }

  function Join(labels: seq<string>): string
    requires |labels| >= 1
  {
    if |labels| == 1 then labels[0] else labels[0] + "." + Join(labels[1..])
  }

  predicate LabelSuffix(d: seq<string>, h: seq<string>) {
    |d| <= |h| && h[|h| - |d|..] == d
  }

  /** A character in front of some labels. */
  function Cons(c: char, labels: seq<string>): seq<string>
    requires |labels| >= 1
  {
    if c == '.' then [""] + labels else [[c] + labels[0]] + labels[1..]
  }

  lemma ConsLabels(c: char, x: seq<string>, y: seq<string>)
    requires x != []
    ensures Cons(c, x + y) == Cons(c, x) + y
  {
  }

  lemma {:induction false} JoinLabels(s: string)
    ensures Join(Labels(s)) == s
  {
    if s != "" {
      JoinLabels(s[1..]);
      var rest := Labels(s[1..]);
      var all := Labels(s);
      if s[0] == '.' {
        assert all[1..] == rest;
        assert s == "" + "." + s[1..];
      } else {
        assert all[1..] == rest[1..];
        assert s == [s[0]] + s[1..];
        if |rest| > 1 {
          assert [s[0]] + (rest[0] + "." + Join(rest[1..])) == ([s[0]] + rest[0]) + "." + Join(rest[1..]);
        }
      }
    }
  }

  lemma {:induction false} LabelsOfSubdomain(a: string, d: string)
    ensures Labels(a + "." + d) == Labels(a) + Labels(d)
  {
    var s := a + "." + d;
    if a == "" {
      assert s[1..] == d;
    } else {
      LabelsOfSubdomain(a[1..], d);
      assert s[0] == a[0] && s[1..] == a[1..] + "." + d;
      ConsLabels(a[0], Labels(a[1..]), Labels(d));
    }
  }

  lemma {:induction false} JoinConcat(x: seq<string>, y: seq<string>)
    requires x != [] && y != []
    ensures Join(x + y) == Join(x) + "." + Join(y)
  {
    if |x| == 1 {
      assert (x + y)[1..] == y;
    } else {
      JoinConcat(x[1..], y);
      assert (x + y)[1..] == x[1..] + y;
      assert x[0] + "." + (Join(x[1..]) + "." + Join(y)) == (x[0] + "." + Join(x[1..])) + "." + Join(y);
    }
  }

  lemma {:induction false} StringSuffixGivesLabels(a: string, d: string)
    ensures LabelSuffix(Labels(d), Labels(d))
    ensures LabelSuffix(Labels(d), Labels(a + "." + d))
  {
    LabelsOfSubdomain(a, d);
    LastLabels(Labels(a), Labels(d));
  }

  lemma LastLabels(x: seq<string>, y: seq<string>)
    ensures LabelSuffix(y, x + y)
  {
  }

  lemma {:induction false} LabelsGiveStringSuffix(pre: seq<string>, d: string, h: string)
    requires Labels(h) == pre + Labels(d)
    ensures h == d || exists a :: h == a + "." + d
  {
    JoinLabels(d);
    JoinLabels(h);
    if pre == [] {
      assert Labels(h) == Labels(d);
    } else {
      JoinConcat(pre, Labels(d));
    }
  }

  /** The string test is the label test: h is d or ends in "." + d exactly when the labels of d
      are the last labels of h. */
  lemma {:induction false} SuffixIsLabelSuffix(d: string, h: string)
    ensures h == d || HasSuffix(h, "." + d) <==> LabelSuffix(Labels(d), Labels(h))
  {
    if HasSuffix(h, "." + d) {
      var a := h[..|h| - |d| - 1];
      assert h == a + "." + d;
      StringSuffixGivesLabels(a, d);
    }
    var ls, ds := Labels(h), Labels(d);
    if LabelSuffix(ds, ls) && h != d {
      assert ls == ls[..|ls| - |ds|] + ds;
      LabelsGiveStringSuffix(ls[..|ls| - |ds|], d, h);
      var a :| h == a + "." + d;
      assert h == a + ("." + d);
    }
  }

  /** A wildcard pattern matches exactly the hosts whose last labels are those of its domain. */
  lemma {:induction false} WildcardMatchesByLabels(pattern: string, host: string, d: string)
    requires Norm(pattern) == "*." + d
    ensures MatchPattern(pattern, host) <==> LabelSuffix(Labels(d), Labels(Norm(host)))
  {
    var p, h := Norm(pattern), Norm(host);
    SuffixIsLabelSuffix(d, h);
    assert p[1..] == "." + d && p[2..] == d;
    if p == h {
      assert h[1..] == "." + d;
    }
  }

  lemma {:induction false} TrimmedIsFixed(s: string)
    requires s == "" || (!IsSpace(s[0]) && !IsSpace(s[|s| - 1]))
    ensures Trim(s) == s
  {
  }

  lemma {:induction false} TrimEdges(s: string)
    ensures Trim(s) == "" || (!IsSpace(Trim(s)[0]) && !IsSpace(Trim(s)[|Trim(s)| - 1]))
  {
    LeftEdge(s);
    RightEdge(TrimLeft(s));
  }

  lemma {:induction false} LeftEdge(s: string)
    ensures TrimLeft(s) == "" || !IsSpace(TrimLeft(s)[0])
  {
    if s != "" && IsSpace(s[0]) { LeftEdge(s[1..]); }
  }

  lemma {:induction false} RightEdge(s: string)
    ensures var r := TrimRight(s); r <= s && (r == "" || !IsSpace(r[|r| - 1]))
  {
    if s != "" && IsSpace(s[|s| - 1]) { RightEdge(s[..|s| - 1]); }
  }

  /** Only white space at the ends. */
  predicate Blank(s: string) { forall i :: 0 <= i < |s| ==> s[i] as int in {9, 10, 11, 12, 13, 32} }

  lemma {:induction false} TrimLeftCuts(s: string)
    ensures exists a :: Blank(a) && s == a + TrimLeft(s)
  {
    if s != "" && IsSpace(s[0]) {
      TrimLeftCuts(s[1..]);
      var a :| Blank(a) && s[1..] == a + TrimLeft(s[1..]);
      assert s == [s[0]] + a + TrimLeft(s);
      assert Blank([s[0]] + a);
    } else {
      assert Blank("") && s == "" + TrimLeft(s);
    }
  }

  lemma {:induction false} TrimRightCuts(s: string)
    ensures exists b :: Blank(b) && s == TrimRight(s) + b
  {
    if s != "" && IsSpace(s[|s| - 1]) {
      var p := s[..|s| - 1];
      TrimRightCuts(p);
      var b :| Blank(b) && p == TrimRight(p) + b;
      assert s == TrimRight(s) + (b + [s[|s| - 1]]);
      assert Blank(b + [s[|s| - 1]]);
    } else {
      assert Blank("") && s == TrimRight(s) + "";
    }
  }

  /** Trimming cuts white space, and only that, off both ends until none is left there. */
  lemma {:induction false} TrimCutsBlanks(s: string)
    ensures exists a, b :: Blank(a) && Blank(b) && s == a + Trim(s) + b
    ensures Trim(s) != "" ==> !Blank([Trim(s)[0]]) && !Blank([Trim(s)[|Trim(s)| - 1]])
  {
    TrimLeftCuts(s);
    var a :| Blank(a) && s == a + TrimLeft(s);
    TrimRightCuts(TrimLeft(s));
    var b :| Blank(b) && TrimLeft(s) == Trim(s) + b;
    assert s == a + (Trim(s) + b) == a + Trim(s) + b;
    TrimEdges(s);
    if Trim(s) != "" {
      assert [Trim(s)[0]][0] == Trim(s)[0] && [Trim(s)[|Trim(s)| - 1]][0] == Trim(s)[|Trim(s)| - 1];
    }
  }

  /** The same letters, whatever their case. */
  predicate SameLetters(x: string, y: string) {
    |x| == |y| && forall i :: 0 <= i < |x| ==>
      x[i] == y[i]
      || ('a' <= x[i] <= 'z' && y[i] as int == x[i] as int - 32)
      || ('a' <= y[i] <= 'z' && x[i] as int == y[i] as int - 32)
  }

  lemma LowerFolds(x: string, y: string)
    ensures Lower(x) == Lower(y) <==> SameLetters(x, y)
  {
    if Lower(x) == Lower(y) {
      forall i | 0 <= i < |x|
        ensures x[i] == y[i] || ('a' <= x[i] <= 'z' && y[i] as int == x[i] as int - 32)
                || ('a' <= y[i] <= 'z' && x[i] as int == y[i] as int - 32)
      {
        assert Lower(x)[i] == Lower(y)[i];
      }
    }
  }

  /** A pattern without a leading "*." matches exactly the hosts with the same letters, once both are
      trimmed. */
  lemma {:induction false} PlainMatchesByLetters(pattern: string, host: string)
    requires !("*." <= Trim(pattern))
    ensures MatchPattern(pattern, host) <==> SameLetters(Trim(pattern), Trim(host))
  {
    LowerFolds(Trim(pattern), Trim(host));
    StarIsKept(Trim(pattern));
  }

  lemma StarIsKept(s: string)
    ensures "*." <= Lower(s) <==> "*." <= s
  {
    if |s| >= 2 {
      assert "*." <= s <==> s[0] == '*' && s[1] == '.';
      assert "*." <= Lower(s) <==> Lower(s)[0] == '*' && Lower(s)[1] == '.';
    }
  }

  lemma {:induction false} NormOfSubdomain(sub: string, host: string)
    requires Trim(sub) == sub && Trim(host) == host
    ensures Norm(sub + "." + host) == Lower(sub) + "." + Lower(host)
  {
    var full := sub + "." + host;
    TrimEdges(sub);
    TrimEdges(host);
    TrimmedIsFixed(full);
  }

  lemma LabelSuffixGrows(d: seq<string>, x: seq<string>, h: seq<string>)
    requires LabelSuffix(d, h)
    ensures LabelSuffix(d, x + h)
  {
  }

  /** What a wildcard accepts, it accepts below every further subdomain. */
  lemma {:induction false} WildcardClosedUnderSubdomains(pattern: string, sub: string, host: string, d: string)
    requires Norm(pattern) == "*." + d && MatchPattern(pattern, host)
    requires Trim(sub) == sub && Trim(host) == host
    ensures MatchPattern(pattern, sub + "." + host)
  {
    WildcardMatchesByLabels(pattern, host, d);
    NormOfSubdomain(sub, host);
    LabelsOfSubdomain(Lower(sub), Lower(host));
    LabelSuffixGrows(Labels(d), Labels(Lower(sub)), Labels(Lower(host)));
    WildcardMatchesByLabels(pattern, sub + "." + host, d);
  }

  /** The Elixir broker does the same without trimming the host: a plain pattern matches the hosts with
      its letters, and "*" matches everything. */
  lemma {:induction false} ElixirPlainMatches(pattern: string, host: string)
    requires !("*." <= Trim(pattern))
    ensures ElixirMatchOne(pattern, host) <==> Trim(pattern) == "*" || SameLetters(Trim(pattern), host)
  {
    LowerFolds(Trim(pattern), host);
    StarIsKept(Trim(pattern));
    OnlyStarIsStar(Trim(pattern));
  }

  lemma OnlyStarIsStar(s: string)
    ensures Lower(s) == "*" <==> s == "*"
  {
    if |s| == 1 {
      assert Lower(s)[0] == '*' <==> s[0] == '*';
    }
  }

  lemma {:induction false} ElixirWildcardMatches(pattern: string, host: string, d: string)
    requires Norm(pattern) == "*." + d
    ensures ElixirMatchOne(pattern, host) <==> LabelSuffix(Labels(d), Labels(Lower(host)))
  {
    var p, h := Norm(pattern), Lower(host);
    SuffixIsLabelSuffix(d, h);
    assert p[1..] == "." + d && p[2..] == d && p != "*";
    if p == h {
      assert h[1..] == "." + d;
    }
  }

  /** On one pattern the two brokers agree about a non-empty trimmed host exactly when the
      pattern is not a padded "*" (or the host itself is "*"): only Elixir trims before the
      match-all test. */
  lemma {:induction false} AgreeOnPattern(pattern: string, host: string)
    requires host != "" && Trim(host) == host
    ensures (GoAllows([pattern], host) <==> ElixirAllows([pattern], host))
            <==> (Norm(pattern) == "*" && pattern != "*" ==> Lower(host) == "*")
  {
    assert [pattern][0] == pattern;
    if pattern == "*" {
      TrimmedIsFixed("*");
      assert Lower("*") == "*";
    }
    assert GoAllows([pattern], host) <==> pattern == "*" || MatchPattern(pattern, host);
    assert ElixirAllows([pattern], host) <==> ElixirMatchOne(pattern, host);
  }

  /** So they agree on every list of trimmed patterns. */
  lemma {:induction false} AgreeOnTrimmed(domains: seq<string>, host: string)
    requires host != "" && Trim(host) == host
    requires forall i :: 0 <= i < |domains| ==> Trim(domains[i]) == domains[i]
    ensures GoAllows(domains, host) <==> ElixirAllows(domains, host)
  {
  }

  /** On any list and a non-empty trimmed host they agree exactly when the Go broker allows the
      host anyway or no pattern is "*" once trimmed. */
  lemma {:induction false} AgreeOnListIff(domains: seq<string>, host: string)
    requires host != "" && Trim(host) == host
    ensures (GoAllows(domains, host) <==> ElixirAllows(domains, host))
            <==> GoAllows(domains, host) || forall i :: 0 <= i < |domains| ==> Norm(domains[i]) != "*"
  {
    TrimmedIsFixed("*");
    assert Lower("*") == "*";
    if GoAllows(domains, host) {
      var i :| 0 <= i < |domains| && (domains[i] == "*" || MatchPattern(domains[i], host));
      assert ElixirMatchOne(domains[i], host);
    }
    if i :| 0 <= i < |domains| && Norm(domains[i]) == "*" {
      assert ElixirMatchOne(domains[i], host);
    }
  }

  /** On an empty host, which the Go broker always refuses, they agree exactly when no pattern is
      "*", "" or "*." once trimmed. */
  lemma {:induction false} AgreeOnEmptyHostIff(domains: seq<string>)
    ensures (GoAllows(domains, "") <==> ElixirAllows(domains, ""))
            <==> forall i :: 0 <= i < |domains| ==> Norm(domains[i]) !in {"*", "", "*."}
  {
    assert Lower("") == "";
    forall i | 0 <= i < |domains| ensures ElixirMatchOne(domains[i], "") <==> Norm(domains[i]) in {"*", "", "*."} {
      var p := Norm(domains[i]);
      if "*." <= p && p[2..] == "" { assert p == "*."; }
    }
  }

  /** Without those conditions they differ: a padded "*" and an empty host. */
  lemma DisagreeOnPadding()
    ensures !GoAllows([" *"], "a.com") && ElixirAllows([" *"], "a.com")
    ensures !GoAllows(["*"], "") && ElixirAllows(["*"], "")
  {
    assert TrimLeft(" *") == TrimLeft("*") == "*";
    assert Norm(" *") == "*" && Norm("*") == "*";
    TrimmedIsFixed("a.com");
    assert [" *"][0] == " *" && ["*"][0] == "*";
    assert ElixirMatchOne([" *"][0], "a.com") && ElixirMatchOne(["*"][0], "");
    assert Norm("a.com") == "a.com";
    assert !MatchPattern(" *", "a.com");
  }
}
