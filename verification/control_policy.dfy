/** How an Acquire's wishes are combined with the class policy: an applicant may only be stricter. */
module ControlPolicy {
  datatype ClassPolicy = ClassPolicy(ttl: int, deadman: int, requireDeadman: bool)

  datatype Terms = Granted(ttl: int, deadman: int) | Invalid | Violation

  predicate ValidPolicy(c: ClassPolicy) {
    c.ttl > 0 && 0 <= c.deadman <= c.ttl && (c.requireDeadman ==> c.deadman > 0)
  }

  function Resolve(c: ClassPolicy, ttl: int, deadman: int): Terms {
    if ttl < 0 || deadman < 0 then Invalid
    else
      var t := if ttl == 0 then c.ttl else ttl;
      if t > c.ttl then Violation
      else
        var d := if deadman == 0 then c.deadman else deadman;
        if c.deadman > 0 && d > c.deadman then Violation
        else if c.requireDeadman && d <= 0 then Violation
        else if d > t then Violation
        else Granted(t, d)
  }

  /** `wish` is the wire preference, which is cut to the policy instead of being refused. */
  function ResolveRequest(c: ClassPolicy, ttl: int, deadman: int, wish: int): Terms {
    if wish < 0 then Invalid
    else if wish == 0 then Resolve(c, ttl, deadman)
    else if ttl != 0 then Invalid
    else
      var t := if wish < c.ttl then wish else c.ttl;
      Resolve(c, t, if deadman == 0 && c.deadman > t then t else deadman)
  }

  /** Whatever is granted is at most as lax as the policy: a positive time to live within the limit, a
      deadman window within both the policy's and the lease's own life, never absent where required. */
  lemma GrantedIsNeverLaxer(c: ClassPolicy, ttl: int, deadman: int, wish: int)
    requires ValidPolicy(c) && ResolveRequest(c, ttl, deadman, wish).Granted?
    ensures var g := ResolveRequest(c, ttl, deadman, wish);
            && 0 < g.ttl <= c.ttl && 0 <= g.deadman <= g.ttl
            && (c.deadman > 0 ==> 0 < g.deadman <= c.deadman) && (c.requireDeadman ==> g.deadman > 0)
            && (ttl > 0 ==> g.ttl == ttl) && (wish > 0 ==> g.ttl <= wish) && (deadman > 0 ==> g.deadman == deadman)
  {
  }

  /** A strict request is granted exactly when it is within the policy; a preference without a window of
      its own always fits. */
  lemma GrantedExactly(c: ClassPolicy, ttl: int, deadman: int, wish: int)
    requires ValidPolicy(c)
    ensures Resolve(c, ttl, deadman).Granted? <==>
              && 0 <= ttl <= c.ttl && 0 <= deadman && (c.deadman > 0 ==> deadman <= c.deadman)
              && (if deadman == 0 then c.deadman else deadman) <= (if ttl == 0 then c.ttl else ttl)
    ensures wish > 0 ==> ResolveRequest(c, 0, 0, wish).Granted?
  {
  }

  /** The outcome in full: contradictory or negative wishes are invalid; a preference is cut to the policy, and its
      window with it; what is absent is the policy's own; anything laxer than the policy is a violation. */
  lemma ResolvedExactly(c: ClassPolicy, ttl: int, deadman: int, wish: int)
    requires ValidPolicy(c)
    ensures var r := ResolveRequest(c, ttl, deadman, wish);
            if wish < 0 || ttl < 0 || deadman < 0 || (wish > 0 && ttl != 0) then r == Invalid else
              var t := if wish > 0 then Least(wish, c.ttl) else if ttl == 0 then c.ttl else ttl;
              var d := if deadman > 0 then deadman else if wish > 0 then Least(c.deadman, t) else c.deadman;
              r == if t <= c.ttl && d <= t && (c.deadman > 0 ==> d <= c.deadman) then Granted(t, d) else Violation
  {
  }

  function Least(a: int, b: int): (m: int)
    ensures m <= a && m <= b && (m == a || m == b)
  {
    if a < b then a else b
  }
}
