/**
 * The topic language of pubsub.c: the walk from a dotted topic to the root, the
 * prefix test, the flag suffix of a subscription and the reply topics.  A C
 * string is a Dafny string without the character NUL.
 */
module Topics {

  const NUL: char := 0 as char

  // ----- the ancestor relation, walked and tested -----

  /** What the truncation loop leaves: everything before the last '.', or nothing. */
  function Parent(t: string): (p: string)
    ensures t != "" ==> |p| < |t|
    ensures p <= t
  {
    if t == "" then ""
    else if t[|t| - 1] == '.' then t[..|t| - 1]
    else Parent(t[..|t| - 1])
  }

  /** The topics a recursive publish to `t` visits, in order. */
  function Chain(t: string): (c: seq<string>)
    ensures c != [] && c[0] == t
    decreases |t|
  {
    [t] + if t == "" then [] else Chain(Parent(t))
  }

  /** The prefix test of push_child_sticky and ps_clean_sticky. */
  predicate Covers(prefix: string, t: string) {
    |prefix| == 0 || (prefix <= t && (|t| == |prefix| || t[|prefix|] == '.'))
  }

  lemma {:induction false} ParentCovers(p: string, t: string)
    requires t != ""
    ensures Covers(p, t) && p != t <==> Covers(p, Parent(t))
    decreases |t|
  {
    var init := t[..|t| - 1];
    if t[|t| - 1] != '.' && init != "" {
      ParentCovers(p, init);
      assert Covers(p, t) && p != t <==> Covers(p, init) && p != init;
    }
  }

  /** The walk visits exactly the topics the prefix test accepts. */
  lemma {:induction false} ChainIsAncestors(p: string, t: string)
    ensures p in Chain(t) <==> Covers(p, t)
    decreases |t|
  {
    if t != "" {
      ParentCovers(p, t);
      ChainIsAncestors(p, Parent(t));
    }
  }

  /** The visited topics get strictly shorter, so none is visited twice, and the root comes last. */
  lemma {:induction false} ChainShrinks(t: string)
    ensures forall i, j :: 0 <= i < j < |Chain(t)| ==> |Chain(t)[i]| > |Chain(t)[j]|
    ensures Chain(t)[|Chain(t)| - 1] == ""
    decreases |t|
  {
    if t != "" {
      ChainShrinks(Parent(t));
      assert forall j :: 0 < j < |Chain(t)| ==> Chain(t)[j] == Chain(Parent(t))[j - 1];
    }
  }

  // ----- the walk in place, on a character buffer -----

  /** The C string in a buffer: everything before the first NUL. */
  function CStr(s: seq<char>): string {
    if s == [] || s[0] == NUL then "" else [s[0]] + CStr(s[1..])
  }

  ghost predicate Terminated(s: seq<char>, t: string) {
    |t| < |s| && s[..|t|] == t && s[|t|] == NUL && NUL !in t
  }

  lemma {:induction false} CStrOfTerminated(s: seq<char>, t: string)
    requires Terminated(s, t)
    ensures CStr(s) == t
  {
    if t != "" {
      assert s[..|t|][0] == t[0];
      assert Terminated(s[1..], t[1..]);
      CStrOfTerminated(s[1..], t[1..]);
    }
  }

  lemma {:induction false} TerminatedCStr(s: seq<char>)
    requires NUL in s
    ensures Terminated(s, CStr(s))
  {
    if s[0] != NUL {
      TerminatedCStr(s[1..]);
      assert s[..|CStr(s)|] == [s[0]] + s[1..][..|CStr(s[1..])|];
    }
  }

  lemma TerminatedAt(s: seq<char>, t: string)
    requires Terminated(s, t)
    ensures forall i :: 0 <= i < |t| ==> s[i] == t[i] != NUL
    ensures s[|t|] == NUL
  {
    assert forall i :: 0 <= i < |t| ==> s[..|t|][i] == t[i];
  }

  method StrLen(buf: array<char>) returns (n: nat)
    requires NUL in buf[..]
    ensures n == |CStr(buf[..])|
  {
    TerminatedCStr(buf[..]);
    ghost var t := CStr(buf[..]);
    TerminatedAt(buf[..], t);
    n := 0;
    while buf[n] != NUL
      invariant n <= |t|
      decreases |t| - n
    {
      n := n + 1;
    }
  }

  /** The truncation loop of ps_publish and ps_subs_count, in place. */
  method Truncate(buf: array<char>)
    requires NUL in buf[..]
    modifies buf
    ensures CStr(buf[..]) == Parent(old(CStr(buf[..]))) && NUL in buf[..]
  {
    TerminatedCStr(buf[..]);
    ghost var t := CStr(buf[..]);
    TerminatedAt(buf[..], t);
    var n := StrLen(buf);
    assert t[..n] == t;
    while n > 0
      invariant 0 <= n <= |t| < buf.Length && buf[n] == NUL && NUL !in t
      invariant forall i :: 0 <= i < n ==> buf[i] == t[i]
      invariant Parent(t[..n]) == Parent(t)
    {
      assert t[..n][..n - 1] == t[..n - 1];
      if buf[n - 1] == '.' {
        buf[n - 1] := NUL;
        CStrOfTerminated(buf[..], t[..n - 1]);
        return;
      }
      buf[n - 1] := NUL;
      n := n - 1;
    }
    CStrOfTerminated(buf[..], "");
  }

  /** strdup. */
  method StrDup(s: string) returns (buf: array<char>)
    requires NUL !in s
    ensures fresh(buf) && NUL in buf[..] && CStr(buf[..]) == s
  {
    buf := new char[|s| + 1](_ => NUL);
    for i := 0 to |s|
      invariant forall j :: 0 <= j < i ==> buf[j] == s[j]
      invariant buf[|s|] == NUL
    {
      buf[i] := s[i];
    }
    CStrOfTerminated(buf[..], s);
  }

  /** The string in a buffer, as a value. */
  method Contents(buf: array<char>) returns (s: string)
    requires NUL in buf[..]
    ensures s == CStr(buf[..])
  {
    TerminatedCStr(buf[..]);
    var n := StrLen(buf);
    s := buf[..n];
  }

  lemma WalkStep(visited: seq<string>, t: string, all: seq<string>)
    requires visited + Chain(t) == all
    ensures visited + [t] + (if t == "" then [] else Chain(Parent(t))) == all
  {
    assert visited + [t] + (if t == "" then [] else Chain(Parent(t))) == visited + Chain(t);
  }

  /** The outer loop of a recursive ps_publish on its private copy of the topic. */
  method Walk(topic: string) returns (visited: seq<string>)
    requires NUL !in topic
    ensures visited == Chain(topic)
  {
    hide CStr, Parent, Chain, Terminated;
    var buf := StrDup(topic);
    visited := [];
    var t := topic;
    while true
      invariant fresh(buf) && NUL in buf[..] && CStr(buf[..]) == t
      invariant visited + Chain(t) == Chain(topic)
      decreases |t|
    {
      WalkStep(visited, t, Chain(topic));
      visited := visited + [t];
      if |t| == 0 {
        return;
      }
      Truncate(buf);
      t := Contents(buf);
    }
  }

  // ----- the flag suffix of a subscription -----

  /** ps_sub_flags_t. */
  datatype SubFlags = SubFlags(hidden: bool, onEmpty: bool, noSticky: bool, childSticky: bool, priority: nat)

  /** The topic part: everything before the first space. */
  function StripFlags(s: string): (t: string)
    ensures t <= s && ' ' !in t
    ensures |t| < |s| ==> s[|t|] == ' '
    ensures ' ' !in s ==> t == s
  {
    if s == "" || s[0] == ' ' then "" else [s[0]] + StripFlags(s[1..])
  }

  /** The flag part: everything after the first space. */
  function FlagPart(s: string): string {
    var n := |StripFlags(s)|;
    if n < |s| then s[n + 1..] else ""
  }

  predicate IsDigit(c: char) { '0' <= c <= '9' }

  /** The effect of the flag character at the head of `s`; 'p' looks one character ahead. */
  function ApplyFlag(s: string, f: SubFlags): SubFlags
    requires s != ""
  {
    match s[0]
    case 'h' => f.(hidden := true)
    case 's' => f.(noSticky := true)
    case 'S' => f.(childSticky := true)
    case 'e' => f.(onEmpty := true)
    case 'p' => if |s| > 1 && IsDigit(s[1]) then f.(priority := s[1] as nat - '0' as nat) else f
    case _ => f
  }

  function ParseFlags(s: string, f: SubFlags): SubFlags {
    if s == "" then f else ParseFlags(s[1..], ApplyFlag(s, f))
  }

  /** strchr(topic, ' ') on the copy of the subscription string. */
  method FindSpace(orig: string) returns (n: nat)
    ensures n == |StripFlags(orig)|
  {
    n := 0;
    while n < |orig| && orig[n] != ' '
      invariant n <= |orig| && |StripFlags(orig)| == n + |StripFlags(orig[n..])|
    {
      assert orig[n..][1..] == orig[n + 1..];
      n := n + 1;
    }
  }

  /** The flag switch of ps_subscribe_flags at position `i`. */
  method SwitchFlag(s: string, i: nat, f: SubFlags) returns (flags: SubFlags)
    requires i < |s|
    ensures flags == ApplyFlag(s[i..], f)
  {
    flags := f;
    match s[i] {
      case 'h' => flags := flags.(hidden := true);
      case 's' => flags := flags.(noSticky := true);
      case 'S' => flags := flags.(childSticky := true);
      case 'e' => flags := flags.(onEmpty := true);
      case 'p' =>
        if i + 1 < |s| && IsDigit(s[i + 1]) {
          flags := flags.(priority := s[i + 1] as nat - '0' as nat);
        }
      case _ =>
    }
  }

  /** The parsing loops of ps_subscribe_flags. */
  method ParseSubscription(orig: string, base: SubFlags) returns (topic: string, flags: SubFlags)
    ensures topic == StripFlags(orig) && flags == ParseFlags(FlagPart(orig), base)
  {
    flags := base;
    var n := FindSpace(orig);
    topic := orig[..n];
    if n < |orig| {
      hide ApplyFlag, StripFlags;
      var s := orig[n + 1..];
      var i := 0;
      while i < |s|
        invariant 0 <= i <= |s|
        invariant ParseFlags(s[i..], flags) == ParseFlags(s, base)
      {
        assert s[i..][1..] == s[i + 1..];
        flags := SwitchFlag(s, i, flags);
        i := i + 1;
      }
    }
  }

  /** The suffix macros of pubsub.h: " pD", " h", " e", " s" and " S". */
  datatype Suffix = Prio(digit: nat) | Hidden | OnEmpty | NoSticky | ChildSticky

  function Render(x: Suffix): string
    requires x.Prio? ==> x.digit < 10
  {
    match x
    case Prio(d) => " p" + [('0' as nat + d) as char]
    case Hidden => " h"
    case OnEmpty => " e"
    case NoSticky => " s"
    case ChildSticky => " S"
  }

  predicate Suffixes(xs: seq<Suffix>) {
    forall i :: 0 <= i < |xs| && xs[i].Prio? ==> xs[i].digit < 10
  }

  function RenderAll(xs: seq<Suffix>): (r: string)
    requires Suffixes(xs)
    ensures xs != [] ==> r != "" && r[0] == ' '
  {
    if xs == [] then "" else Render(xs[0]) + RenderAll(xs[1..])
  }

  /** The digit of the last priority suffix, or the priority given in the struct. */
  function LastPriority(xs: seq<Suffix>, base: nat): nat {
    if xs == [] then base
    else LastPriority(xs[1..], if xs[0].Prio? then xs[0].digit else base)
  }

  /** What a list of suffixes asks for on top of the struct's flags. */
  function Requested(xs: seq<Suffix>, base: SubFlags): SubFlags {
    SubFlags(base.hidden || Hidden in xs, base.onEmpty || OnEmpty in xs,
             base.noSticky || NoSticky in xs, base.childSticky || ChildSticky in xs,
             LastPriority(xs, base.priority))
  }

  lemma {:induction false} ParseRendered(xs: seq<Suffix>, f: SubFlags)
    requires Suffixes(xs)
    ensures ParseFlags(RenderAll(xs), f) == Requested(xs, f)
    decreases |xs|
  {
    if xs != [] {
      var x, rest := xs[0], RenderAll(xs[1..]);
      ParseOne(x, rest, f);
      ParseRendered(xs[1..], Requested([x], f));
      RequestedCons(xs, f);
    }
  }

  lemma RequestedCons(xs: seq<Suffix>, f: SubFlags)
    requires xs != []
    ensures Requested(xs, f) == Requested(xs[1..], Requested([xs[0]], f))
  {
    assert forall y :: y in xs <==> y == xs[0] || y in xs[1..];
    LastOfOne(xs[0], f.priority);
  }

  lemma LastOfOne(x: Suffix, base: nat)
    ensures LastPriority([x], base) == if x.Prio? then x.digit else base
  {
    assert [x][1..] == [];
  }

  lemma ParseOne(x: Suffix, rest: string, f: SubFlags)
    requires x.Prio? ==> x.digit < 10
    ensures ParseFlags(Render(x) + rest, f) == ParseFlags(rest, Requested([x], f))
  {
    var s := Render(x) + rest;
    LastOfOne(x, f.priority);
    assert s[1..][1..] == s[2..];
    assert ParseFlags(s, f) == ParseFlags(s[1..], f);
    assert ParseFlags(s[1..], f) == ParseFlags(s[2..], ApplyFlag(s[1..], f));
    if x.Prio? {
      assert s[2..][1..] == rest;
      assert IsDigit(s[2]) && s[1..][1] == s[2];
      assert ApplyFlag(s[1..], f) == f.(priority := x.digit);
    } else {
      assert s[2..] == rest;
    }
  }

  /** Concatenating suffixes to a space-free topic and parsing gives back the topic and the flags. */
  lemma SuffixRoundTrip(topic: string, xs: seq<Suffix>, base: SubFlags)
    requires ' ' !in topic && Suffixes(xs)
    ensures StripFlags(topic + RenderAll(xs)) == topic
    ensures ParseFlags(FlagPart(topic + RenderAll(xs)), base) == Requested(xs, base)
  {
    var r := RenderAll(xs);
    StripTopic(topic, r);
    if xs == [] {
      assert topic + r == topic;
    } else {
      assert FlagPart(topic + r) == r[1..];
      assert ParseFlags(r, base) == ParseFlags(r[1..], base);
      ParseRendered(xs, base);
    }
  }

  lemma {:induction false} StripTopic(topic: string, r: string)
    requires ' ' !in topic && (r == "" || r[0] == ' ')
    ensures StripFlags(topic + r) == topic
  {
    if topic == "" {
      assert topic + r == r;
    } else {
      assert (topic + r)[1..] == topic[1..] + r;
      StripTopic(topic[1..], r);
    }
  }

  /** A priority that comes from the string is a digit, so below the number of levels. */
  lemma {:induction false} ParsedPriorityInRange(s: string, f: SubFlags)
    requires f.priority < 10
    ensures ParseFlags(s, f).priority < 10
  {
    if s != "" {
      ParsedPriorityInRange(s[1..], ApplyFlag(s, f));
    }
  }

  // ----- reply topics -----

  /** %u. */
  function Decimal(n: nat): (s: string)
    ensures s != "" && forall i :: 0 <= i < |s| ==> IsDigit(s[i])
  {
    var d := [('0' as nat + n % 10) as char];
    if n < 10 then d else Decimal(n / 10) + d
  }

  lemma {:induction false} DecimalInjective(m: nat, n: nat)
    requires Decimal(m) == Decimal(n)
    ensures m == n
  {
    var s, t := Decimal(m), Decimal(n);
    assert s[|s| - 1] == t[|t| - 1];
    assert m % 10 == n % 10;
    if m >= 10 && n >= 10 {
      assert Decimal(m / 10) == s[..|s| - 1] == t[..|t| - 1] == Decimal(n / 10);
      DecimalInjective(m / 10, n / 10);
    } else {
      assert |Decimal(m / 10)| > 0 && |Decimal(n / 10)| > 0;
    }
  }

  /** The reply topic ps_call makes from its counter. */
  function ReplyTopic(n: nat): string {
    "$r." + Decimal(n)
  }

  /** No reply topic is an ancestor of another, even when one numeral is a prefix of the other. */
  lemma ReplyTopicsIsolated(m: nat, n: nat)
    requires m != n
    ensures !Covers(ReplyTopic(m), ReplyTopic(n))
    ensures ReplyTopic(m) !in Chain(ReplyTopic(n))
  {
    var a, b := ReplyTopic(m), ReplyTopic(n);
    ChainIsAncestors(a, b);
    assert Decimal(m) == a[3..] && Decimal(n) == b[3..];
    assert forall i :: 3 <= i < |b| ==> b[i] == Decimal(n)[i - 3];
    if a == b {
      DecimalInjective(m, n);
    }
  }

  /** A reply is offered at its own topic, at "$r" and at the root. */
  lemma ReplyChain(n: nat)
    ensures Chain(ReplyTopic(n)) == [ReplyTopic(n), "$r", ""]
  {
    ParentOfDigits("$r", Decimal(n));
    assert "$r" + "." + Decimal(n) == ReplyTopic(n);
  }

  lemma {:induction false} ParentOfDigits(t: string, d: string)
    requires '.' !in d
    ensures Parent(t + "." + d) == t
  {
    var s := t + "." + d;
    if d != "" {
      var n := |d| - 1;
      assert s[..|s| - 1] == t + "." + d[..n];
      ParentOfDigits(t, d[..n]);
    } else {
      assert s[..|s| - 1] == t;
    }
  }
}
