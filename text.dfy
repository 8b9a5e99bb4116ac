/** The bits of text formatting the error messages use: decimal numbers,
    the ascending order in which JavaScript lists integer object keys, and
    `join(', ')`. */
module Text {

  predicate IsDigit(c: char) { '0' <= c <= '9' }

  /** `String(n)` for a non-negative integer. */
  function NatToString(n: nat): (s: string)
    ensures |s| >= 1 && forall i :: 0 <= i < |s| ==> IsDigit(s[i])
  {
    var d := ((n % 10) + '0' as int) as char;
    if n < 10 then [d] else NatToString(n / 10) + [d]
  }

  /** The value of a string of decimal digits. */
  function DigitsValue(s: string): nat
    requires forall i :: 0 <= i < |s| ==> IsDigit(s[i])
  {
    if s == [] then 0
    else
      assert IsDigit(s[|s| - 1]);
      DigitsValue(s[..|s| - 1]) * 10 + (s[|s| - 1] as int - '0' as int)
  }

  /** The decimal rendering reads back as the number it renders. */
  lemma {:induction false} NatToStringRoundTrip(n: nat)
    ensures DigitsValue(NatToString(n)) == n
  {
    if n >= 10 {
      var s := NatToString(n);
      var init := NatToString(n / 10);
      assert s[..|s| - 1] == init;
      NatToStringRoundTrip(n / 10);
    }
  }

  predicate IsLeast(m: nat, s: set<nat>) {
    m in s && forall x :: x in s ==> m <= x
  }

  lemma {:induction false} LeastExists(s: set<nat>)
    requires s != {}
    ensures exists m :: IsLeast(m, s)
    decreases |s|
  {
    var x :| x in s;
    if s != {x} {
      LeastExists(s - {x});
      var m :| IsLeast(m, s - {x});
      assert forall y :: y in s ==> y == x || y in s - {x};
      if x < m { assert IsLeast(x, s); } else { assert IsLeast(m, s); }
    } else {
      assert IsLeast(x, s);
    }
  }

  /** `Object.keys` of a record keyed by status codes: the integer keys in
      ascending order. */
  function SortedStatuses(s: set<nat>): (r: seq<nat>)
    ensures forall i, j :: 0 <= i < j < |r| ==> r[i] < r[j]
    ensures forall x :: x in s <==> x in r
    decreases |s|
  {
    if s == {} then []
    else
      LeastExists(s);
      var m :| IsLeast(m, s);
      var rest := SortedStatuses(s - {m});
      assert forall i :: 0 <= i < |rest| ==> rest[i] in s - {m};
      [m] + rest
  }

  /** `statuses.join(', ')`. */
  function JoinStatuses(ns: seq<nat>): string {
    if ns == [] then ""
    else if |ns| == 1 then NatToString(ns[0])
    else NatToString(ns[0]) + ", " + JoinStatuses(ns[1..])
  }

  /** `t` occurs in `s` at some position. */
  predicate Infix(t: string, s: string) {
    exists k :: 0 <= k <= |s| - |t| && OccursAt(t, s, k)
  }

  predicate OccursAt(t: string, s: string, k: int)
    requires 0 <= k <= |s| - |t|
  {
    s[k..k + |t|] == t
  }

  lemma InfixAt(t: string, a: string, b: string)
    ensures Infix(t, a + t + b)
  {
    var s := a + t + b;
    assert OccursAt(t, s, |a|);
  }

  /** An occurrence survives putting text around it. */
  lemma InfixWithin(t: string, a: string, b: string, c: string)
    requires Infix(t, b)
    ensures Infix(t, a + b + c)
  {
    var k :| 0 <= k <= |b| - |t| && OccursAt(t, b, k);
    var s := a + b + c;
    assert s[|a| + k..|a| + k + |t|] == b[k..k + |t|];
    assert OccursAt(t, s, |a| + k);
  }

  /** The joined list shows every status of the list. */
  lemma {:induction false} JoinShowsEach(ns: seq<nat>, i: int)
    requires 0 <= i < |ns|
    ensures Infix(NatToString(ns[i]), JoinStatuses(ns))
    decreases |ns|
  {
    if |ns| == 1 {
      InfixAt(NatToString(ns[0]), "", "");
      assert "" + NatToString(ns[0]) + "" == JoinStatuses(ns);
    } else if i == 0 {
      InfixAt(NatToString(ns[0]), "", ", " + JoinStatuses(ns[1..]));
      assert "" + NatToString(ns[0]) + (", " + JoinStatuses(ns[1..])) == JoinStatuses(ns);
    } else {
      JoinShowsEach(ns[1..], i - 1);
      InfixWithin(NatToString(ns[i]), NatToString(ns[0]) + ", ", JoinStatuses(ns[1..]), "");
      assert NatToString(ns[0]) + ", " + JoinStatuses(ns[1..]) + "" == JoinStatuses(ns);
    }
  }
}
