/**
 * The API addresses and the index every request shares: it moves forward past a
 * domain only when a request has failed on that domain while it was the active one.
 */
module Endpoints {
  import opened Wrappers

  /** Unicode's separators, and the controls that move to another column or line. */
  predicate IsSpace(c: char) {
    || 9 <= c as int <= 13
    || 0x2000 <= c as int <= 0x200a
    || c as int in {0x20, 0x85, 0xa0, 0x1680, 0x2028, 0x2029, 0x202f, 0x205f, 0x3000}
  }

  function Trimmed(s: string): string {
    if s == "" then s
    else if IsSpace(s[0]) then Trimmed(s[1..])
    else if IsSpace(s[|s| - 1]) then Trimmed(s[..|s| - 1])
    else s
  }

  /** What is left has space at neither end, and nothing but space went. */
  lemma {:induction false} TrimmedIs(s: string) returns (i: nat, j: nat)
    ensures i <= j <= |s| && Trimmed(s) == s[i..j]
    ensures forall k :: 0 <= k < i || j <= k < |s| ==> IsSpace(s[k])
    ensures i < j ==> !IsSpace(s[i]) && !IsSpace(s[j - 1])
  {
    hide IsSpace;
    if s == "" {
      return 0, 0;
    }
    if IsSpace(s[0]) {
      i, j := TrimmedIs(s[1..]);
      i, j := i + 1, j + 1;
    } else if IsSpace(s[|s| - 1]) {
      i, j := TrimmedIs(s[..|s| - 1]);
    } else {
      return 0, |s|;
    }
  }

  /** Blank and repeated entries collapse away; the rest keep their order. */
  function Cleaned(list: seq<string>): seq<string> {
    if list == [] then []
    else
      var rest, last := Cleaned(list[..|list| - 1]), Trimmed(list[|list| - 1]);
      if last == "" || last in rest then rest else rest + [last]
  }

  predicate Distinct(list: seq<string>) {
    forall i, j :: 0 <= i < j < |list| ==> list[i] != list[j]
  }

  /** Every address that says anything is kept exactly once. */
  lemma {:induction false} CleanedKeepsEachOnce(list: seq<string>)
    ensures Distinct(Cleaned(list)) && "" !in Cleaned(list)
    ensures forall a :: a in Cleaned(list) <==> a != "" && exists i :: 0 <= i < |list| && Trimmed(list[i]) == a
  {
    if list != [] {
      var front, last := list[..|list| - 1], Trimmed(list[|list| - 1]);
      CleanedKeepsEachOnce(front);
      forall a
        ensures a in Cleaned(list) <==> a != "" && exists i :: 0 <= i < |list| && Trimmed(list[i]) == a
      {
        if i :| 0 <= i < |list| && Trimmed(list[i]) == a && a != "" {
          if i < |front| {
            assert Trimmed(front[i]) == a;
          }
        }
        if a in Cleaned(front) {
          var i :| 0 <= i < |front| && Trimmed(front[i]) == a;
          assert Trimmed(list[i]) == a;
        }
      }
    }
  }

  // ── The shared index ──────────────────────────────────────────────────────

  class Endpoints {
    const apis: seq<string>
    var index: nat

    ghost predicate Valid()
      reads this
    {
      Distinct(apis) && (apis == [] ==> index == 0) && (apis != [] ==> index < |apis|)
    }

    constructor (apiUrls: seq<string>)
      ensures Valid() && apis == Cleaned(apiUrls) && index == 0
    {
      var kept, seen := [], {};
      for i := 0 to |apiUrls|
        invariant kept == Cleaned(apiUrls[..i]) && forall a :: a in seen <==> a in kept
      {
        assert apiUrls[..i + 1][..i] == apiUrls[..i];
        var trimmed := Trimmed(apiUrls[i]);
        if trimmed != "" && trimmed !in seen {
          seen := seen + {trimmed};
          kept := kept + [trimmed];
        }
      }
      assert apiUrls[..|apiUrls|] == apiUrls;
      apis, index := kept, 0;
      new;
      CleanedKeepsEachOnce(apiUrls);
    }

    function Active(): string
      reads this
    {
      if index < |apis| then apis[index] else if |apis| > 0 then apis[0] else ""
    }

    method ApiBase() returns (base: string)
      requires Valid()
      ensures base == if apis == [] then "" else apis[index]
    {
      base := Active();
    }

    /** The next domain, the one another request has already moved to, or none. */
    method FailOver(failedBase: string) returns (next: Option<string>)
      requires Valid()
      modifies this`index
      ensures Valid() && old(index) <= index <= old(index) + 1
      ensures AsFailover() == FailedOver(old(AsFailover()), failedBase).0
      ensures next == FailedOver(old(AsFailover()), failedBase).1
      ensures old(Active()) != failedBase ==> index == old(index) && next == Some(old(Active()))
      ensures old(Active()) == failedBase && old(index) + 1 < |apis| ==>
                index == old(index) + 1 && next == Some(apis[index])
      ensures old(Active()) == failedBase && old(index) + 1 >= |apis| ==> index == old(index) && next == None
    {
      var current := Active();
      if current != failedBase {
        return Some(current);
      }
      if index + 1 >= |apis| {
        return None;
      }
      index := index + 1;
      next := Some(apis[index]);
    }

    function AsFailover(): Failover
      reads this
    {
      Failover(apis, index, {}, map[])
    }
  }

  // ── Requests that share it ────────────────────────────────────────────────

  type Caller = nat

  /** The domains, the active index, the domains a request has failed on while
      they were active, and what each request has tried, its last try under way. */
  datatype Failover = Failover(apis: seq<string>, index: nat, blamed: set<string>, tried: map<Caller, seq<string>>)

  function Active(f: Failover): string {
    if f.index < |f.apis| then f.apis[f.index] else if |f.apis| > 0 then f.apis[0] else ""
  }

  /** One call of `failOver`: the new state of the index and what the caller is told. */
  function FailedOver(f: Failover, failedBase: string): (Failover, Option<string>) {
    if Active(f) != failedBase then (f, Some(Active(f)))
    else if f.index + 1 >= |f.apis| then (f, None)
    else (f.(index := f.index + 1), Some(f.apis[f.index + 1]))
  }

  datatype Action = Start(caller: Caller) | ConnectionFails(caller: Caller) | Finish(caller: Caller)

  predicate Enabled(f: Failover, a: Action) {
    match a
    case Start(c) => c !in f.tried
    case ConnectionFails(c) => c in f.tried && f.tried[c] != []
    case Finish(c) => c in f.tried
  }

  /** A request retries on what it is told, unless that is the base it just failed on or nothing. */
  function After(f: Failover, a: Action): Failover
    requires Enabled(f, a)
  {
    match a
    case Start(c) => f.(tried := f.tried[c := [Active(f)]])
    case Finish(c) => f.(tried := f.tried - {c})
    case ConnectionFails(c) =>
      var base := Last(f.tried[c]);
      var (moved, next) := FailedOver(f, base);
      var noted := moved.(blamed := if base == Active(f) then f.blamed + {base} else f.blamed);
      if next.None? || next.value == base then noted.(tried := f.tried - {c})
      else noted.(tried := f.tried[c := f.tried[c] + [next.value]])
  }

  /** What a request has tried: ever later domains, none past the active one. */
  ghost predicate TriedOk(f: Failover, tried: seq<string>) {
    && (f.apis == [] ==> tried == [""])
    && (f.apis != [] ==>
          exists at: seq<nat> :: Along(f.apis, f.index, tried, at))
  }

  predicate Along(apis: seq<string>, index: nat, tried: seq<string>, at: seq<nat>) {
    && |at| == |tried| > 0
    && (forall i :: 0 <= i < |at| ==> at[i] <= index && at[i] < |apis| && tried[i] == apis[at[i]])
    && (forall i, j :: 0 <= i < j < |at| ==> at[i] < at[j])
  }

  ghost predicate Inv(f: Failover) {
    && Distinct(f.apis) && (if f.apis == [] then f.index == 0 else f.index < |f.apis|)
    && (forall i :: 0 <= i < f.index ==> f.apis[i] in f.blamed)
    && (forall c :: c in f.tried ==> TriedOk(f, f.tried[c]))
  }

  /** A request that goes on has moved along: its next domain is the active one, past its last. */
  lemma LastIsNotPast(apis: seq<string>, index: nat, tried: seq<string>, at: seq<nat>)
    requires Distinct(apis) && index < |apis| && Along(apis, index, tried, at)
    ensures Last(tried) == apis[index] ==> Last(at) == index
    ensures Last(tried) != apis[index] ==> Along(apis, index, tried + [apis[index]], at + [index])
    ensures index + 1 < |apis| ==> Along(apis, index + 1, tried + [apis[index + 1]], at + [index + 1])
    ensures Along(apis, index + 1, tried, at)
  {
  }

  function Last<T>(s: seq<T>): T
    requires s != []
  {
    s[|s| - 1]
  }

  lemma TriedLater(f: Failover, g: Failover, tried: seq<string>)
    requires TriedOk(f, tried) && g.apis == f.apis && f.index <= g.index <= f.index + 1
    ensures TriedOk(g, tried)
  {
    if f.apis != [] {
      var at :| Along(f.apis, f.index, tried, at);
      assert Along(g.apis, g.index, tried, at);
    }
  }

  lemma FailExtends(f: Failover, c: Caller)
    requires Inv(f) && Enabled(f, ConnectionFails(c))
    ensures var g := After(f, ConnectionFails(c)); c in g.tried ==> TriedOk(g, g.tried[c])
  {
    if f.apis != [] {
      var at :| Along(f.apis, f.index, f.tried[c], at);
      LastIsNotPast(f.apis, f.index, f.tried[c], at);
      var g := After(f, ConnectionFails(c));
      hide Along;
      if c in g.tried {
        assert Along(g.apis, g.index, g.tried[c], at + [g.index]);
      }
    }
  }

  lemma FailKeeps(f: Failover, c: Caller)
    requires Inv(f) && Enabled(f, ConnectionFails(c))
    ensures Inv(After(f, ConnectionFails(c)))
  {
    FailExtends(f, c);
    var g := After(f, ConnectionFails(c));
    hide TriedOk;
    forall d | d in g.tried && d != c
      ensures TriedOk(g, g.tried[d])
    {
      TriedLater(f, g, f.tried[d]);
    }
  }

  lemma StartKeeps(f: Failover, c: Caller)
    requires Inv(f) && Enabled(f, Start(c))
    ensures Inv(After(f, Start(c)))
  {
    var g := After(f, Start(c));
    if f.apis != [] {
      assert Along(g.apis, g.index, g.tried[c], [f.index]);
    }
    assert forall d :: d in f.tried ==> TriedOk(f, f.tried[d]) && TriedOk(g, f.tried[d]);
  }

  predicate Run(f: Failover, actions: seq<Action>, g: Failover)
    decreases |actions|
  {
    if actions == [] then g == f
    else Enabled(f, actions[0]) && Run(After(f, actions[0]), actions[1..], g)
  }

  lemma {:induction false} RunsKeep(f: Failover, actions: seq<Action>, g: Failover)
    requires Inv(f) && Run(f, actions, g)
    ensures Inv(g) && g.index >= f.index && g.apis == f.apis
    decreases |actions|
  {
    if actions != [] {
      match actions[0] {
        case Start(c) => StartKeeps(f, c);
        case ConnectionFails(c) => FailKeeps(f, c);
        case Finish(c) =>
          assert forall d :: d in f.tried ==> TriedOk(f, f.tried[d]) && TriedOk(After(f, actions[0]), f.tried[d]);
      }
      hide Inv;
      RunsKeep(After(f, actions[0]), actions[1..], g);
    }
  }

  /** However requests fail against one another: the index only grows, every
      domain it has passed failed a request while it was active, and no request
      tries a domain twice. */
  lemma FailoverIsFair(apiUrls: seq<string>, actions: seq<Action>, f: Failover)
    requires Run(Failover(Cleaned(apiUrls), 0, {}, map[]), actions, f)
    ensures forall i :: 0 <= i < f.index && i < |f.apis| ==> f.apis[i] in f.blamed
    ensures forall c :: c in f.tried ==> Distinct(f.tried[c])
  {
    CleanedKeepsEachOnce(apiUrls);
    RunsKeep(Failover(Cleaned(apiUrls), 0, {}, map[]), actions, f);
    forall c | c in f.tried
      ensures Distinct(f.tried[c])
    {
      if f.apis != [] {
        var at :| Along(f.apis, f.index, f.tried[c], at);
      }
    }
  }

  function Fails(c: Caller, n: nat): (actions: seq<Action>)
    ensures |actions| == n && forall a :: a in actions ==> a == ConnectionFails(c)
  {
    if n == 0 then [] else [ConnectionFails(c)] + Fails(c, n - 1)
  }

  lemma FailsOnce(f: Failover, c: Caller)
    requires Inv(f) && c in f.tried && f.apis != [] && f.tried[c] != [] && Last(f.tried[c]) == f.apis[f.index]
    ensures var g := After(f, ConnectionFails(c));
            && Inv(g) && g.apis == f.apis
            && (if f.index + 1 < |f.apis| then
                  g.index == f.index + 1 && c in g.tried && g.tried[c] == f.tried[c] + [f.apis[f.index + 1]]
                else g.index == f.index && c !in g.tried)
  {
    FailKeeps(f, c);
    hide TriedOk;
  }

  lemma RunsFail(f: Failover, c: Caller, n: nat, g: Failover)
    requires n > 0 && Enabled(f, ConnectionFails(c)) && Run(After(f, ConnectionFails(c)), Fails(c, n - 1), g)
    ensures Run(f, Fails(c, n), g)
  {
    hide After;
    assert Fails(c, n)[0] == ConnectionFails(c) && Fails(c, n)[1..] == Fails(c, n - 1);
  }

  /** A request whose every attempt fails, nobody else failing meanwhile, tries
      each domain from the active one on, in order, and gives up after the last. */
  lemma {:induction false} TriesEveryDomain(f: Failover, c: Caller, n: nat) returns (g: Failover)
    requires Inv(f) && c in f.tried && f.apis != [] && f.tried[c] != [] && Last(f.tried[c]) == f.apis[f.index]
    requires n <= |f.apis| - f.index
    ensures Run(f, Fails(c, n), g)
    ensures n < |f.apis| - f.index ==>
              g.index == f.index + n && c in g.tried
              && g.tried[c] == f.tried[c] + f.apis[f.index + 1..f.index + n + 1]
    ensures n == |f.apis| - f.index ==> c !in g.tried && g.index == |f.apis| - 1
    decreases n
  {
    hide TriedOk, After, Run, Fails, Distinct;
    if n == 0 {
      g := f;
      RunsNone(c, f);
    } else {
      var next := After(f, ConnectionFails(c));
      FailsOnce(f, c);
      if f.index + 1 == |f.apis| {
        g := next;
        RunsNone(c, next);
      } else {
        g := TriesEveryDomain(next, c, n - 1);
        if n < |f.apis| - f.index {
          TakesUp(f.apis, f.index + 1, f.index + n + 1, f.tried[c]);
        }
      }
      RunsFail(f, c, n, g);
    }
  }

  lemma TakesUp(apis: seq<string>, i: nat, j: nat, tried: seq<string>)
    requires i < j <= |apis|
    ensures tried + [apis[i]] + apis[i + 1..j] == tried + apis[i..j]
  {
  }

  lemma RunsNone(c: Caller, f: Failover)
    ensures Run(f, Fails(c, 0), f)
  {
  }
}
