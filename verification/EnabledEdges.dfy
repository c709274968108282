/** The transition generator: the imperative enumeration of every edge enabled in a state. */
module EnabledEdges {
  import opened Options
  import opened Lifecycle
  import opened ModelState
  import opened Events

  ghost predicate DistinctLabels(out: seq<Edge>) {
    forall i, j | 0 <= i < j < |out| :: out[i].0 != out[j].0
  }

  lemma ConcatDistinct(a: seq<Edge>, b: seq<Edge>)
    requires DistinctLabels(a) && DistinctLabels(b)
    requires forall e, f | e in a && f in b :: e.0 != f.0
    ensures DistinctLabels(a + b)
  {
    forall i, j | 0 <= i < j < |a + b|
      ensures (a + b)[i].0 != (a + b)[j].0
    {
      if i < |a| <= j {
        assert a[i] in a && b[j - |a|] in b;
      }
    }
  }

  method HighestEpoch(bindings: set<Binding>) returns (top: nat)
    ensures top == TopEpoch(bindings)
  {
    top := 0;
    var todo := bindings;
    while todo != {}
      invariant todo <= bindings
      invariant forall b | b in bindings - todo :: b.target.Vpn? ==> b.target.epoch <= top
      invariant top == 0 || exists b | b in bindings :: b.target == Vpn(top)
    {
      var b :| b in todo;
      if b.target.Vpn? && b.target.epoch > top {
        top := b.target.epoch;
      }
      todo := todo - {b};
    }
  }

  method IngestEdges(d: Domain, r: Rules, s: State) returns (out: seq<Edge>)
    ensures DistinctLabels(out)
    ensures forall l, t :: (l, t) in out <==> l.Ingest? && Step(d, r, s, l, t)
  {
    out := [];
    if s.sq && (s.se || !r.ingestNeedsEkm) {
      var todo := d.ids;
      while todo != {}
        invariant todo <= d.ids && DistinctLabels(out)
        invariant forall l, t :: (l, t) in out <==> l.Ingest? && l.id !in todo && Step(d, r, s, l, t)
      {
        var k :| k in todo;
        if k !in s.pool && k !in Consumed(s) && k !in s.expired {
          out := out + [(Ingest(k), PoolAdd(r, s, k))];
        }
        todo := todo - {k};
      }
    }
  }

  method ExpireEdges(d: Domain, r: Rules, s: State) returns (out: seq<Edge>)
    ensures DistinctLabels(out)
    ensures forall l, t :: (l, t) in out <==> l.Expire? && Step(d, r, s, l, t)
  {
    out := [];
    if !r.expireNeedsSourceDown || !s.sq {
      var todo := Retained(r, s);
      while todo != {}
        invariant todo <= Retained(r, s) && DistinctLabels(out)
        invariant forall l, t :: (l, t) in out <==> l.Expire? && l.id !in todo && Step(d, r, s, l, t)
      {
        var k :| k in todo;
        out := out + [(Expire(k), ExpireResult(r, s, k))];
        todo := todo - {k};
      }
    }
  }

  method AllocEkmEdges(d: Domain, r: Rules, s: State) returns (out: seq<Edge>)
    ensures DistinctLabels(out)
    ensures forall l, t :: (l, t) in out <==> l.AllocEkm? && Step(d, r, s, l, t)
  {
    out := [];
    if s.se && (s.sq || !r.allocEkmNeedsSource) {
      var used := Targets(s);
      var todo := Retained(r, s);
      while todo != {}
        invariant todo <= Retained(r, s) && DistinctLabels(out)
        invariant forall l, t :: (l, t) in out <==> l.AllocEkm? && l.id !in todo && Step(d, r, s, l, t)
      {
        var k :| k in todo;
        var versions := d.versions;
        while versions != {}
          invariant versions <= d.versions && DistinctLabels(out)
          invariant forall l, t :: (l, t) in out <==>
            l.AllocEkm? && (l.id !in todo || (l.id == k && l.version !in versions)) && Step(d, r, s, l, t)
        {
          var v :| v in versions;
          if Some(v) != s.ke && Ekm(v) !in used {
            out := out + [(AllocEkm(k, v), AllocEkmResult(r, s, k, v))];
          }
          versions := versions - {v};
        }
        todo := todo - {k};
      }
    }
  }

  /** The allocations of one identifier: the next epoch, or every remaining one. */
  method AllocVpnEdgesOf(d: Domain, r: Rules, s: State, k: Id, next: nat) returns (out: seq<Edge>)
    requires VpnAllocOpen(d, r, s) && k in Retained(r, s) && next == NextEpoch(s)
    ensures DistinctLabels(out)
    ensures forall l, t :: (l, t) in out <==> l.AllocVpn? && l.id == k && Step(d, r, s, l, t)
  {
    out := [];
    hide TopEpoch, Retained;
    if !r.allocVpnAnyFutureEpoch {
      out := [(AllocVpn(k, None), AllocVpnResult(r, s, k, next))];
    } else {
      for e := next to d.maxEpoch + 1
        invariant DistinctLabels(out)
        invariant forall l, t :: (l, t) in out <==>
          l.AllocVpn? && l.id == k && Step(d, r, s, l, t) && l.tag.value < e
      {
        out := out + [(AllocVpn(k, Some(e)), AllocVpnResult(r, s, k, e))];
      }
    }
  }

  method AllocVpnEdges(d: Domain, r: Rules, s: State) returns (out: seq<Edge>)
    ensures DistinctLabels(out)
    ensures forall l, t :: (l, t) in out <==> l.AllocVpn? && Step(d, r, s, l, t)
  {
    out := [];
    var top := HighestEpoch(s.bindings);
    var next := (if top > s.epoch then top else s.epoch) + 1;
    var pendingOk := s.kp.None? || r.vpnPendingReplaceable;
    var activeOk := s.kv.None? || !r.allocVpnNeedsNoActive;
    if s.se && next <= d.maxEpoch && pendingOk && activeOk {
      var todo := Retained(r, s);
      while todo != {}
        invariant todo <= Retained(r, s) && DistinctLabels(out)
        invariant forall l, t :: (l, t) in out <==> l.AllocVpn? && l.id !in todo && Step(d, r, s, l, t)
      {
        var k :| k in todo;
        var edges := AllocVpnEdgesOf(d, r, s, k, next);
        ConcatDistinct(out, edges);
        out := out + edges;
        todo := todo - {k};
      }
    }
  }

  method ActivateEdges(r: Rules, s: State) returns (out: seq<Edge>)
    ensures DistinctLabels(out)
    ensures forall l, t :: (l, t) in out <==> l.ActivateVpn? && SessionEnabled(r, s, l) && t == SessionFire(r, s, l)
  {
    out := [];
    if !r.activateMerged && s.kp.Some? && s.kp.value.epoch > s.epoch {
      out := [(ActivateVpn, s.(kv := s.kp, epoch := s.kp.value.epoch, kp := None))];
    }
  }

  method EndEdges(r: Rules, s: State) returns (out: seq<Edge>)
    ensures DistinctLabels(out)
    ensures forall l, t :: (l, t) in out <==>
              (l.AbandonPending? || l.SessionEnd?) && SessionEnabled(r, s, l) && t == SessionFire(r, s, l)
  {
    assert SessionEnabled(r, s, AbandonPending) == (r.abandonPending && s.kp.Some?);
    assert SessionEnabled(r, s, SessionEnd) == (r.sessionEnd && s.kv.Some?);
    assert SessionEnabled(r, s, AbandonPending) ==> SessionFire(r, s, AbandonPending) == AbandonResult(r, s);
    assert SessionEnabled(r, s, SessionEnd) ==> SessionFire(r, s, SessionEnd) == s.(kv := None);
    hide SessionEnabled, SessionFire, AbandonResult;
    out := [];
    if r.abandonPending && s.kp.Some? {
      out := out + [(AbandonPending, AbandonResult(r, s))];
    }
    if r.sessionEnd && s.kv.Some? {
      out := out + [(SessionEnd, s.(kv := None))];
    }
  }

  method StaleEdges(r: Rules, s: State) returns (out: seq<Edge>)
    ensures DistinctLabels(out)
    ensures forall l, t :: (l, t) in out <==> l.RejectStale? && SessionEnabled(r, s, l) && t == SessionFire(r, s, l)
  {
    out := [];
    var stale := if r.rejectStaleNeedsActive then s.kv.Some? else s.epoch > 0;
    if stale && r.rejectStalePerEpoch {
      for e := 1 to s.epoch + 1
        invariant DistinctLabels(out)
        invariant forall l, t :: (l, t) in out <==>
          l.RejectStale? && SessionEnabled(r, s, l) && l.tag.value < e && t == s
      {
        out := out + [(RejectStale(Some(e)), s)];
      }
    } else if stale {
      out := out + [(RejectStale(None), s)];
    }
  }

  method SourceEdges(r: Rules, s: State) returns (out: seq<Edge>)
    ensures DistinctLabels(out)
    ensures forall l, t :: (l, t) in out <==> (l.SrcDown? || l.SrcUp?) && FlagEnabled(r, s, l) && t == FlagFire(r, s, l)
  {
    out := [];
    if s.sq || r.depTogglesUnconditional {
      out := out + [(SrcDown, Interrupt(r, s.(sq := false)))];
    }
    if !s.sq || r.depTogglesUnconditional {
      out := out + [(SrcUp, Restore(r, s.(sq := true)))];
    }
  }

  method EkmEdges(r: Rules, s: State) returns (out: seq<Edge>)
    ensures DistinctLabels(out)
    ensures forall l, t :: (l, t) in out <==> (l.EkmDown? || l.EkmUp?) && FlagEnabled(r, s, l) && t == FlagFire(r, s, l)
  {
    out := [];
    if s.se || r.depTogglesUnconditional {
      out := out + [(EkmDown, EkmDownResult(r, s))];
    }
    if !s.se || r.depTogglesUnconditional {
      out := out + [(EkmUp, Restore(r, s.(se := true)))];
    }
  }

  method AuthorityEdges(r: Rules, s: State) returns (out: seq<Edge>)
    ensures DistinctLabels(out)
    ensures forall l, t :: (l, t) in out <==>
              (l.AuthorityWithdraw? || l.AuthorityGrant?) && FlagEnabled(r, s, l) && t == FlagFire(r, s, l)
  {
    var open := !r.authorityOnlyWhenDegraded || ModeOf(s) != Ready;
    assert FlagEnabled(r, s, AuthorityWithdraw) == (open && (s.authority || r.depTogglesUnconditional));
    assert FlagEnabled(r, s, AuthorityGrant) == (open && (!s.authority || r.depTogglesUnconditional));
    assert FlagFire(r, s, AuthorityWithdraw) == WithdrawResult(r, s);
    assert FlagFire(r, s, AuthorityGrant) == s.(authority := true);
    hide FlagEnabled, FlagFire, WithdrawResult, ModeOf;
    out := [];
    if open {
      if s.authority || r.depTogglesUnconditional {
        out := out + [(AuthorityWithdraw, WithdrawResult(r, s))];
      }
      if !s.authority || r.depTogglesUnconditional {
        out := out + [(AuthorityGrant, s.(authority := true))];
      }
    }
  }

  method RecoveryEdges(r: Rules, s: State) returns (out: seq<Edge>)
    ensures DistinctLabels(out)
    ensures forall l, t :: (l, t) in out <==>
              (l.Reconcile? || l.Recover?) && FlagEnabled(r, s, l) && t == FlagFire(r, s, l)
  {
    out := [];
    if r.restorationDetected && s.detected && s.sq && s.se {
      out := out + [(Reconcile, s.(detected := false, recovery := true))];
    }
    if s.sq && s.se && s.recovery && (s.authority || !r.recoverNeedsAuthority) {
      out := out + [(Label.Recover, RecoverResult(r, s))];
    }
  }

  /** The edges that move identifiers. */
  method InventoryEdges(d: Domain, r: Rules, s: State) returns (out: seq<Edge>)
    ensures DistinctLabels(out)
    ensures forall l, t :: (l, t) in out <==> MovesInventory(l) && Step(d, r, s, l, t)
  {
    var ingest := IngestEdges(d, r, s);
    var expire := ExpireEdges(d, r, s);
    var ekm := AllocEkmEdges(d, r, s);
    var vpn := AllocVpnEdges(d, r, s);
    hide Step;
    ConcatDistinct(ingest, expire);
    ConcatDistinct(ingest + expire, ekm);
    ConcatDistinct(ingest + expire + ekm, vpn);
    out := ingest + expire + ekm + vpn;
  }

  /** The edges that move sessions or flags. */
  method ControlEdges(d: Domain, r: Rules, s: State) returns (out: seq<Edge>)
    ensures DistinctLabels(out)
    ensures forall l, t :: (l, t) in out <==> !MovesInventory(l) && Step(d, r, s, l, t)
  {
    var activate := ActivateEdges(r, s);
    var end := EndEdges(r, s);
    var stale := StaleEdges(r, s);
    var source := SourceEdges(r, s);
    var ekm := EkmEdges(r, s);
    var authority := AuthorityEdges(r, s);
    var recovery := RecoveryEdges(r, s);
    hide SessionEnabled, SessionFire, FlagEnabled, FlagFire, InventoryEnabled, InventoryFire;
    ConcatDistinct(activate, end);
    var sessions := activate + end;
    ConcatDistinct(sessions, stale);
    ConcatDistinct(sessions + stale, source);
    ConcatDistinct(sessions + stale + source, ekm);
    ConcatDistinct(sessions + stale + source + ekm, authority);
    ConcatDistinct(sessions + stale + source + ekm + authority, recovery);
    out := sessions + stale + source + ekm + authority + recovery;
  }

  /** Exactly the edges of the transition relation, each label once. */
  method Enabled(d: Domain, r: Rules, s: State) returns (out: seq<Edge>)
    ensures DistinctLabels(out)
    ensures forall l, t :: (l, t) in out <==> Step(d, r, s, l, t)
  {
    var inventory := InventoryEdges(d, r, s);
    var control := ControlEdges(d, r, s);
    hide Step;
    ConcatDistinct(inventory, control);
    out := inventory + control;
  }
}
