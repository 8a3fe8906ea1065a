/**
 Timed mutual exclusion in runs: between two handlers that take the claim, or the lease, of one job
 there is a full TTL, unless the first gave it back or the store lost it.
 */
module Exclusion {
  import opened Keys
  import opened System
  import opened Safety
  import opened Frames
  import opened Promptness
  import opened Margin

  /** The step is a successful SET NX on the key. */
  ghost predicate Grants(cfg: Settings, s: World, step: Step, key: Key) {
    && step.Work? && step.worker in s.workers && key !in s.kv
    && var a := ActionAt(cfg, step.worker, s.workers[step.worker], step.env); a.Take? && a.key == key
  }

  ghost function Grantee(cfg: Settings, s: World, step: Step, key: Key): Owner
    requires Grants(cfg, s, step, key)
  {
    ActionAt(cfg, step.worker, s.workers[step.worker], step.env).owner
  }

  /** The owner deletes the entry, or the store loses it. */
  ghost predicate GivesBack(cfg: Settings, s: World, step: Step, key: Key, owner: Owner) {
    || step == Lose(key)
    || (&& step.Work? && step.worker in s.workers
        && ActionAt(cfg, step.worker, s.workers[step.worker], step.env) == Action.Drop(key, owner))
  }

  ghost predicate HeldUntil(s: World, key: Key, owner: Owner, until: real) {
    s.now < until ==> key in s.kv && s.kv[key] == KV.Entry(owner, until)
  }

  lemma GrantHolds(cfg: Settings, s: World, step: Step, key: Key)
    requires Grants(cfg, s, step, key) && Exclusive(key)
    ensures HeldUntil(Next(cfg, s, step), key, Grantee(cfg, s, step, key), s.now + cfg.leaseTtl)
  {
    WorkUnfolds(cfg, s, step.worker, step.env);
    TakeShape(cfg, step.worker, s.workers[step.worker], step.env);
    WorkTakesNoTime(cfg, s, step.worker, step.env);
  }

  lemma EffectKeepsEntry(s: World, h: Handler, a: Action, key: Key)
    requires key in s.kv && a != Action.Drop(key, s.kv[key].value)
    ensures key in Effect(s, h, a).kv && Effect(s, h, a).kv[key] == s.kv[key]
  {}

  lemma HoldingStays(cfg: Settings, s: World, step: Step, key: Key, owner: Owner, until: real)
    requires HeldUntil(s, key, owner, until) && !GivesBack(cfg, s, step, key, owner)
    ensures HeldUntil(Next(cfg, s, step), key, owner, until)
  {
    NextGrows(cfg, s, step);
    if s.now < until {
      if step.Work? {
        WorkUnfolds(cfg, s, step.worker, step.env);
        if step.worker in s.workers {
          var h := s.workers[step.worker];
          EffectKeepsEntry(s, h, ActionAt(cfg, step.worker, h, step.env), key);
        }
      } else {
        KeysFrame(cfg, s, step);
      }
    }
  }

  lemma HoldingLink(
      cfg: Settings, ws: seq<World>, steps: seq<Step>, n: nat, key: Key, owner: Owner, until: real)
    requires Path(cfg, ws, steps) && n < |steps| && HeldUntil(ws[n], key, owner, until)
    requires !GivesBack(cfg, ws[n], steps[n], key, owner)
    ensures HeldUntil(ws[n + 1], key, owner, until)
  {
    assert Linked(cfg, ws, steps, n);
    HoldingStays(cfg, ws[n], steps[n], key, owner, until);
  }

  ghost predicate GivenBackBetween(
      cfg: Settings, ws: seq<World>, steps: seq<Step>, a: nat, b: nat, key: Key, owner: Owner)
    requires |ws| == |steps| + 1 && b <= |steps|
  {
    exists k :: a <= k < b && GivesBack(cfg, ws[k], steps[k], key, owner)
  }

  lemma {:induction false} StaysHeld(
      cfg: Settings, ws: seq<World>, steps: seq<Step>, a: nat, b: nat, key: Key, owner: Owner, until: real)
    requires Path(cfg, ws, steps) && a <= b < |ws| && HeldUntil(ws[a], key, owner, until)
    requires !GivenBackBetween(cfg, ws, steps, a, b, key, owner)
    ensures HeldUntil(ws[b], key, owner, until)
  {
    if a < b {
      assert !GivesBack(cfg, ws[b - 1], steps[b - 1], key, owner);
      StaysHeld(cfg, ws, steps, a, b - 1, key, owner, until);
      HoldingLink(cfg, ws, steps, b - 1, key, owner, until);
    }
  }

  lemma GrantLink(cfg: Settings, ws: seq<World>, steps: seq<Step>, m: nat, key: Key)
    requires Path(cfg, ws, steps) && m < |steps| && Grants(cfg, ws[m], steps[m], key) && Exclusive(key)
    ensures HeldUntil(ws[m + 1], key, Grantee(cfg, ws[m], steps[m], key), ws[m].now + cfg.leaseTtl)
  {
    assert Linked(cfg, ws, steps, m);
    GrantHolds(cfg, ws[m], steps[m], key);
  }

  /**
   Two handlers that take the claim (or the lease) of one job, on any path, are a full TTL apart, unless
   the first gave it back, or the store lost it, in between.
   */
  lemma RunsExclude(cfg: Settings, ws: seq<World>, steps: seq<Step>, m: nat, n: nat, key: Key)
    requires Path(cfg, ws, steps) && m < n < |steps| && Exclusive(key)
    requires Grants(cfg, ws[m], steps[m], key) && Grants(cfg, ws[n], steps[n], key)
    ensures || ws[m].now + cfg.leaseTtl <= ws[n].now
            || GivenBackBetween(cfg, ws, steps, m + 1, n, key, Grantee(cfg, ws[m], steps[m], key))
  {
    var owner := Grantee(cfg, ws[m], steps[m], key);
    GrantLink(cfg, ws, steps, m, key);
    if !GivenBackBetween(cfg, ws, steps, m + 1, n, key, owner) {
      StaysHeld(cfg, ws, steps, m + 1, n, key, owner, ws[m].now + cfg.leaseTtl);
    }
  }
}
