/** What a command does to an extraction beam, and what an active beam draws and when: stated of the
    world before and after a stage, in the terms of the components alone. */
module Extraction {
  import opened Ecs
  import opened Economy
  import opened Upkeep
  import opened Ledger
  import Motion

  // ---- Toggling ------------------------------------------------------------

  /** The k-th action is the first toggle among them. */
  predicate TogglesAt(actions: seq<Action>, k: nat) {
    && k < |actions| && actions[k].ToggleExtraction?
    && (forall j | 0 <= j < k :: !actions[j].ToggleExtraction?)
  }

  lemma {:induction false} FirstToggleIs(actions: seq<Action>, k: nat)
    requires TogglesAt(actions, k)
    ensures FirstToggle(actions) == Some(actions[k].target)
    decreases k
  {
    if k > 0 {
      assert !actions[0].ToggleExtraction? && actions[1..][k - 1] == actions[k];
      FirstToggleIs(actions[1..], k - 1);
    }
  }

  lemma {:induction false} NoToggleIs(actions: seq<Action>)
    requires forall j | 0 <= j < |actions| :: !actions[j].ToggleExtraction?
    ensures FirstToggle(actions) == None
    decreases |actions|
  {
    if actions != [] { NoToggleIs(actions[1..]); }
  }

  /** The extraction beam of an entity. */
  function BeamOf(w: World, e: Entity): Option<ExtractionBeam> {
    if e in w.entities then w.entities[e].gear.extractor else None
  }

  /** The input stage acts on the latest command once per client tick: its first toggle turns the beam
      on or off and names the target; without one only the tick is noted. */
  lemma CommandToggles(w: World, i: Inputs, e: Entity, k: nat)
    requires e in w.entities && w.entities[e].gear.input.Some? && w.entities[e].gear.extractor.Some?
    ensures var b, command := w.entities[e].gear.extractor.value, w.entities[e].gear.input.value.command;
            var b' := BeamOf(InputStage(w, i), e);
            && (b.lastSeen == Some(command.tick) ==> b' == Some(b))
            && (b.lastSeen != Some(command.tick) && TogglesAt(command.actions, k) ==>
                  b' == Some(ExtractionBeam(
                    !b.active, Some(command.actions[k].target), b.range, b.rate, Some(command.tick))))
            && (b.lastSeen != Some(command.tick) && (forall a | a in command.actions :: !a.ToggleExtraction?) ==>
                  b' == Some(ExtractionBeam(b.active, b.target, b.range, b.rate, Some(command.tick))))
  {
    hide BoundsFor, WrapPosition;
    var actions := w.entities[e].gear.input.value.command.actions;
    if TogglesAt(actions, k) { FirstToggleIs(actions, k); }
    if forall a | a in actions :: !a.ToggleExtraction? { NoToggleIs(actions); }
    hide FirstToggle;
    var w1 := MoveAll(w, i.moved);
    assert w1.entities[e].gear == w.entities[e].gear;
    assert EncloseAll(w1).entities[e].gear == w.entities[e].gear;
  }

  /** Without a command nothing happens to the beam. */
  lemma NoCommandNoToggle(w: World, i: Inputs, e: Entity)
    requires e in w.entities && w.entities[e].gear.input.None?
    ensures BeamOf(InputStage(w, i), e) == w.entities[e].gear.extractor
  {
    hide BoundsFor, WrapPosition;
    var w1 := MoveAll(w, i.moved);
    assert w1.entities[e].gear == w.entities[e].gear;
    assert EncloseAll(w1).entities[e].gear == w.entities[e].gear;
  }

  // ---- Drawing -------------------------------------------------------------

  function MaxReal(x: real, y: real): real {
    if x <= y then y else x
  }

  /** The rate, falling off linearly with the distance to a tenth of it; a beam without a range has
      a tenth. */
  function Power(rate: U16, distance: real, range: real): real {
    rate as real * if range == 0.0 then 0.1 else MaxReal(0.1, 1.0 - distance / range)
  }

  /** `a` is the integer nearest to `x` from 1 to 65535, halves up. */
  predicate RoundsTo(a: nat, x: real) {
    && 1 <= a <= 65535
    && (a > 1 ==> a as real - 0.5 <= x)
    && (a < 65535 ==> x < a as real + 0.5)
  }

  function Nearest(x: real): (a: U16)
    ensures RoundsTo(a, x)
  {
    if x < 1.5 then 1 else if x >= 65534.5 then 65535 else (x + 0.5).Floor
  }

  lemma AmountRounds(rate: U16, distance: real, range: real)
    ensures BaseAmount(rate, distance, range) == Nearest(Power(rate, distance, range))
  {
    assert Scaled(rate, Efficiency(distance, range)) == Power(rate, distance, range);
    hide Scaled, Efficiency, Power;
    var x := Power(rate, distance, range);
    assert (x + 0.5).Floor as real <= x + 0.5 < (x + 0.5).Floor as real + 1.0;
  }

  /** An agent of the query with an active beam, somewhere, with a store. */
  predicate Extracts(w: World, e: Entity) {
    && e in w.entities && w.entities[e].gear.extractor.Some? && w.entities[e].gear.extractor.value.active
    && w.entities[e].locale.position.Some? && w.entities[e].cargo.store.Some?
  }

  /** The beam of `e` names the live resource `r`. */
  predicate Aims(w: World, e: Entity, r: Entity)
    requires Extracts(w, e)
  {
    var b := w.entities[e].gear.extractor.value;
    && b.target.Some? && b.target.value in w.net.byId && w.net.byId[b.target.value] == r
    && r in w.entities && w.entities[r].cargo.resource.Some? && w.entities[r].locale.position.Some?
  }

  /** How far it is, squared. */
  function Apart(w: World, e: Entity, r: Entity): real
    requires Extracts(w, e) && Aims(w, e, r)
  {
    var p, q := w.entities[r].locale.position.value, w.entities[e].locale.position.value;
    (p.x - q.x) * (p.x - q.x) + (p.y - q.y) * (p.y - q.y)
  }

  /** The resource is in range and the agent has room. */
  predicate Reaches(w: World, e: Entity, r: Entity)
    requires Extracts(w, e) && Aims(w, e, r)
  {
    && Apart(w, e, r) <= w.entities[e].gear.extractor.value.range * w.entities[e].gear.extractor.value.range
    && w.entities[e].cargo.store.value.payload < w.entities[e].cargo.store.value.capacity
  }

  function StoreOf(w: World, e: Entity): Option<DataStore> {
    if e in w.entities then w.entities[e].cargo.store else None
  }

  function ResourceOf(w: World, e: Entity): Option<Resource> {
    if e in w.entities then w.entities[e].cargo.resource else None
  }

  // ---- What validation decides ---------------------------------------------

  lemma ValidateAims(w: World, e: Entity, r: Entity, sqrt: real -> real)
    requires Extracts(w, e) && Aims(w, e, r)
    ensures var b, s := w.entities[e].gear.extractor.value, w.entities[e].cargo.store.value;
            var v := Validate(w, e, sqrt);
            if !Reaches(w, e, r) then v == Disable
            else if w.entities[r].cargo.resource.value.remaining > 0 && w.serverTick % 10 == 0 then
              v == Draw(Transfer(e, r, BaseAmount(b.rate, sqrt(Apart(w, e, r)), b.range)))
            else v == Wait
  {
    hide BaseAmount, Apart, DistanceSquared;
    ApartIs(w, e, r);
  }

  lemma ApartIs(w: World, e: Entity, r: Entity)
    requires Extracts(w, e) && Aims(w, e, r)
    ensures Apart(w, e, r) == DistanceSquared(w.entities[r].locale.position.value, w.entities[e].locale.position.value)
  {
    hide Extracts, Aims;
  }

  lemma ValidateMisses(w: World, e: Entity, sqrt: real -> real)
    requires Extracts(w, e) && forall r :: !Aims(w, e, r)
    ensures Validate(w, e, sqrt) == Disable
  {
    hide BaseAmount;
    var b := w.entities[e].gear.extractor.value;
    if b.target.Some? && b.target.value in w.net.byId { assert !Aims(w, e, w.net.byId[b.target.value]); }
  }

  lemma ValidateIdle(w: World, e: Entity, sqrt: real -> real)
    requires !Extracts(w, e)
    ensures Validate(w, e, sqrt) == Idle
  {}

  /** Whoever draws does it for itself, from what it aims at. */
  lemma DrawAims(w: World, e: Entity, sqrt: real -> real)
    requires Validate(w, e, sqrt).Draw?
    ensures var t := Validate(w, e, sqrt).transfer; t.agent == e && Extracts(w, e) && Aims(w, e, t.resource)
  {
    hide BaseAmount, DistanceSquared;
  }

  // ---- Transfers of others -------------------------------------------------

  lemma TransferElsewhere(w: World, t: Transfer, e: Entity)
    ensures t.agent != e ==> StoreOf(TransferOne(w, t), e) == StoreOf(w, e)
    ensures t.resource != e ==> ResourceOf(TransferOne(w, t), e) == ResourceOf(w, e)
    ensures BeamOf(TransferOne(w, t), e) == BeamOf(w, e)
  {
    hide Granted;
  }

  lemma {:induction false} TransfersElsewhere(w: World, ts: seq<Transfer>, e: Entity)
    ensures (forall k | 0 <= k < |ts| :: ts[k].agent != e) ==> StoreOf(TransferAll(w, ts), e) == StoreOf(w, e)
    ensures (forall k | 0 <= k < |ts| :: ts[k].resource != e) ==> ResourceOf(TransferAll(w, ts), e) == ResourceOf(w, e)
    ensures BeamOf(TransferAll(w, ts), e) == BeamOf(w, e)
    decreases |ts|
  {
    hide TransferOne, StoreOf, ResourceOf, BeamOf;
    if ts != [] {
      TransfersElsewhere(w, ts[..|ts| - 1], e);
      TransferElsewhere(TransferAll(w, ts[..|ts| - 1]), ts[|ts| - 1], e);
    }
  }

  lemma {:induction false} TransferMore(w: World, ts: seq<Transfer>, more: seq<Transfer>)
    ensures TransferAll(w, ts + more) == TransferAll(TransferAll(w, ts), more)
    decreases |more|
  {
    hide TransferOne;
    if more == [] {
      assert ts + more == ts;
    } else {
      TransferMore(w, ts, more[..|more| - 1]);
      assert (ts + more)[..|ts + more| - 1] == ts + more[..|more| - 1];
    }
  }

  lemma {:induction false} TransfersMore(w: World, order: seq<Entity>, more: seq<Entity>, sqrt: real -> real)
    ensures Transfers(w, order + more, sqrt) == Transfers(w, order, sqrt) + Transfers(w, more, sqrt)
    decreases |more|
  {
    hide Validate;
    if more == [] {
      assert order + more == order;
    } else {
      TransfersMore(w, order, more[..|more| - 1], sqrt);
      assert (order + more)[..|order + more| - 1] == order + more[..|more| - 1];
      assert (order + more)[|order + more| - 1] == more[|more| - 1];
    }
  }

  /** The transfers of a part of the query are by its agents, from what they aim at. */
  lemma {:induction false} TransfersBy(w: World, order: seq<Entity>, sqrt: real -> real, k: nat)
    requires k < |Transfers(w, order, sqrt)|
    ensures var t := Transfers(w, order, sqrt)[k];
            t.agent in order && Extracts(w, t.agent) && Aims(w, t.agent, t.resource)
    decreases |order|
  {
    hide Validate, Extracts, Aims;
    var rest := order[..|order| - 1];
    if k < |Transfers(w, rest, sqrt)| {
      TransfersBy(w, rest, sqrt, k);
    } else {
      DrawAims(w, order[|order| - 1], sqrt);
    }
  }

  // ---- The stage -----------------------------------------------------------

  lemma DisabledAt(w: World, order: seq<Entity>, sqrt: real -> real, e: Entity)
    ensures var w' := DisableAll(w, order, sqrt);
            && StoreOf(w', e) == StoreOf(w, e) && ResourceOf(w', e) == ResourceOf(w, e)
            && BeamOf(w', e) == (if e in order && Validate(w, e, sqrt).Disable? && BeamOf(w, e).Some?
                                 then Some(BeamOf(w, e).value.(active := false)) else BeamOf(w, e))
  {
    hide Validate;
  }

  /** A query that visits `e` once, split there. */
  lemma VisitedOnce(order: seq<Entity>, e: Entity) returns (before: seq<Entity>, after: seq<Entity>)
    requires Distinct(order) && e in order
    ensures order == before + [e] + after && e !in before && e !in after
  {
    var k :| 0 <= k < |order| && order[k] == e;
    before, after := order[..k], order[k + 1..];
  }

  lemma StageSplit(w: World, i: Inputs, e: Entity, before: seq<Entity>, after: seq<Entity>)
    requires i.extractors == before + [e] + after
    ensures var v := Validate(w, e, i.sqrt);
            var w1 := TransferAll(DisableAll(w, i.extractors, i.sqrt), Transfers(w, before, i.sqrt));
            var w2 := if v.Draw? then TransferOne(w1, v.transfer) else w1;
            ExtractStage(w, i) == TransferAll(w2, Transfers(w, after, i.sqrt))
  {
    hide Validate, DisableAll, TransferOne;
    var w0, v := DisableAll(w, i.extractors, i.sqrt), Validate(w, e, i.sqrt);
    var own: seq<Transfer> := if v.Draw? then [v.transfer] else [];
    assert [e][..0] == [];
    assert Transfers(w, [e], i.sqrt) == own;
    TransfersMore(w, before, [e], i.sqrt);
    TransfersMore(w, before + [e], after, i.sqrt);
    TransferMore(w0, Transfers(w, before, i.sqrt), own);
    TransferMore(w0, Transfers(w, before, i.sqrt) + own, Transfers(w, after, i.sqrt));
    var w1 := TransferAll(w0, Transfers(w, before, i.sqrt));
    if v.Draw? { assert own[..0] == []; assert TransferAll(w1, own) == TransferOne(w1, v.transfer); }
  }

  /** What `e` draws from `r` when its turn comes and `left` is left: on every tenth tick, in range and
      with room, what its beam can, as far as that is left and there is room for it. */
  function Turn(w: World, e: Entity, r: Entity, left: nat, sqrt: real -> real): nat {
    if Extracts(w, e) && Aims(w, e, r) && Reaches(w, e, r) && w.serverTick % 10 == 0 then
      var b, s := w.entities[e].gear.extractor.value, w.entities[e].cargo.store.value;
      Min(Min(Nearest(Power(b.rate, sqrt(Apart(w, e, r)), b.range)), left), s.capacity - s.payload)
    else 0
  }

  /** What is left in `r` when these agents have had their turns. */
  ghost function Left(w: World, order: seq<Entity>, r: Entity, sqrt: real -> real): (n: nat)
    requires ResourceOf(w, r).Some?
    ensures n <= ResourceOf(w, r).value.remaining
  {
    if order == [] then ResourceOf(w, r).value.remaining
    else
      var left := Left(w, order[..|order| - 1], r, sqrt);
      left - Turn(w, order[|order| - 1], r, left, sqrt)
  }

  /** One transfer, alone. */
  lemma OwnTransfer(w: World, t: Transfer)
    requires StoreOf(w, t.agent).Some? && ResourceOf(w, t.resource).Some?
    requires StoreOf(w, t.agent).value.payload <= StoreOf(w, t.agent).value.capacity
    ensures var s, m := StoreOf(w, t.agent).value, ResourceOf(w, t.resource).value;
            var g := Min(Min(t.amount, m.remaining), s.capacity - s.payload);
            && StoreOf(TransferOne(w, t), t.agent) == Some(s.(payload := s.payload + g))
            && ResourceOf(TransferOne(w, t), t.resource) == Some(m.(remaining := m.remaining - g))
            && BeamOf(TransferOne(w, t), t.agent) == BeamOf(w, t.agent)
  {}

  /** The same stores and resources, wherever. */
  ghost predicate SameCargo(w: World, w': World) {
    forall x :: StoreOf(w', x) == StoreOf(w, x) && ResourceOf(w', x) == ResourceOf(w, x)
  }

  lemma {:induction false} OtherTurns(w: World, w0: World, order: seq<Entity>, sqrt: real -> real, e: Entity)
    requires e !in order
    ensures StoreOf(TransferAll(w0, Transfers(w, order, sqrt)), e) == StoreOf(w0, e)
    ensures BeamOf(TransferAll(w0, Transfers(w, order, sqrt)), e) == BeamOf(w0, e)
  {
    hide Transfers, TransferAll, StoreOf, BeamOf, Extracts, Aims;
    forall k | 0 <= k < |Transfers(w, order, sqrt)| ensures Transfers(w, order, sqrt)[k].agent != e {
      TransfersBy(w, order, sqrt, k);
    }
    TransfersElsewhere(w0, Transfers(w, order, sqrt), e);
  }

  /** One turn, on a world in which the others of the query have had theirs. */
  lemma OneTurn(w: World, w1: World, e: Entity, r: Entity, sqrt: real -> real)
    requires StoreOf(w1, e) == StoreOf(w, e) && ResourceOf(w, r).Some? && ResourceOf(w1, r).Some?
    requires ResourceOf(w1, r).value.remaining <= ResourceOf(w, r).value.remaining
    ensures var v, m := Validate(w, e, sqrt), ResourceOf(w1, r).value;
            var w2 := if v.Draw? then TransferOne(w1, v.transfer) else w1;
            var g := Turn(w, e, r, m.remaining, sqrt);
            && ResourceOf(w2, r) == Some(m.(remaining := m.remaining - g))
            && (Extracts(w, e) && Aims(w, e, r) ==>
                  StoreOf(w2, e) == Some(StoreOf(w, e).value.(payload := StoreOf(w, e).value.payload + g)))
  {
    hide Validate, BaseAmount, Nearest, Power, Apart, TransferOne, Reaches;
    var v := Validate(w, e, sqrt);
    if Extracts(w, e) && Aims(w, e, r) {
      var b := w.entities[e].gear.extractor.value;
      ValidateAims(w, e, r, sqrt);
      AmountRounds(b.rate, sqrt(Apart(w, e, r)), b.range);
      if v.Draw? { HasRoom(w, e, r); OwnTransfer(w1, v.transfer); }
    } else if v.Draw? {
      DrawAims(w, e, sqrt);
      TransferElsewhere(w1, v.transfer, r);
    }
  }

  lemma HasRoom(w: World, e: Entity, r: Entity)
    requires Extracts(w, e) && Aims(w, e, r) && Reaches(w, e, r)
    ensures w.entities[e].cargo.store.value.payload <= w.entities[e].cargo.store.value.capacity
  {
    hide Apart;
  }

  lemma {:induction false} TurnsLeave(w: World, w0: World, order: seq<Entity>, r: Entity, sqrt: real -> real)
    requires SameCargo(w, w0) && Distinct(order) && ResourceOf(w, r).Some?
    ensures ResourceOf(TransferAll(w0, Transfers(w, order, sqrt)), r)
         == Some(ResourceOf(w, r).value.(remaining := Left(w, order, r, sqrt)))
    decreases |order|
  {
    hide Validate, Turn, TransferOne, StoreOf, ResourceOf, Extracts, Aims;
    if order != [] {
      var rest, e := order[..|order| - 1], order[|order| - 1];
      TurnsLeave(w, w0, rest, r, sqrt);
      assert e !in rest;
      OtherTurns(w, w0, rest, sqrt, e);
      OneTurn(w, TransferAll(w0, Transfers(w, rest, sqrt)), e, r, sqrt);
      LastTurn(w, w0, order, sqrt);
    }
  }

  lemma LastTurn(w: World, w0: World, order: seq<Entity>, sqrt: real -> real)
    requires order != []
    ensures var rest, v := order[..|order| - 1], Validate(w, order[|order| - 1], sqrt);
            var w1 := TransferAll(w0, Transfers(w, rest, sqrt));
            TransferAll(w0, Transfers(w, order, sqrt)) == if v.Draw? then TransferOne(w1, v.transfer) else w1
  {
    hide Validate, TransferOne;
    var ts, ts1 := Transfers(w, order, sqrt), Transfers(w, order[..|order| - 1], sqrt);
    if ts != ts1 { assert ts[..|ts| - 1] == ts1; }
  }

  /** After the stage a resource holds what the agents of the query, each in its turn, left of it. */
  lemma LeftInTurn(w: World, i: Inputs, r: Entity)
    requires Distinct(i.extractors) && ResourceOf(w, r).Some?
    ensures ResourceOf(ExtractStage(w, i), r)
         == Some(ResourceOf(w, r).value.(remaining := Left(w, i.extractors, r, i.sqrt)))
  {
    hide Validate, Transfers, TransferAll, DisableAll, Left, StoreOf, ResourceOf, BeamOf;
    forall x { DisabledAt(w, i.extractors, i.sqrt, x); }
    TurnsLeave(w, DisableAll(w, i.extractors, i.sqrt), i.extractors, r, i.sqrt);
  }

  /** And an agent holds what it drew in its turn. Out of range or with a full store its beam is
      switched off; otherwise it stays on. */
  lemma DrawsInTurn(w: World, i: Inputs, before: seq<Entity>, e: Entity, after: seq<Entity>, r: Entity)
    requires i.extractors == before + [e] + after && Distinct(i.extractors) && Extracts(w, e) && Aims(w, e, r)
    ensures var s, b, w' := StoreOf(w, e).value, BeamOf(w, e).value, ExtractStage(w, i);
            && StoreOf(w', e)
               == Some(s.(payload := s.payload + Turn(w, e, r, Left(w, before, r, i.sqrt), i.sqrt)))
            && BeamOf(w', e) == Some(b.(active := Reaches(w, e, r)))
  {
    hide Validate, Transfers, TransferAll, TransferOne, DisableAll, ExtractStage, Left, Turn, Apart;
    var w0, v := DisableAll(w, i.extractors, i.sqrt), Validate(w, e, i.sqrt);
    var w1 := TransferAll(w0, Transfers(w, before, i.sqrt));
    var w2 := if v.Draw? then TransferOne(w1, v.transfer) else w1;
    OnceOnly(before, e, after, i.extractors);
    forall x { DisabledAt(w, i.extractors, i.sqrt, x); }
    ValidateAims(w, e, r, i.sqrt);
    StageSplit(w, i, e, before, after);
    TurnsLeave(w, w0, before, r, i.sqrt);
    OtherTurns(w, w0, before, i.sqrt, e);
    OneTurn(w, w1, e, r, i.sqrt);
    if v.Draw? { TransferElsewhere(w1, v.transfer, e); }
    OtherTurns(w, w2, after, i.sqrt, e);
  }

  lemma OnceOnly(before: seq<Entity>, e: Entity, after: seq<Entity>, order: seq<Entity>)
    requires order == before + [e] + after && Distinct(order)
    ensures Distinct(before) && e !in before && e !in after
  {
    assert forall k | 0 <= k < |before| :: order[k] == before[k];
    assert order[|before|] == e;
    assert forall k | 0 <= k < |after| :: order[|before| + 1 + k] == after[k];
  }

  /** A beam whose target is missing, or is no resource, is switched off and draws nothing. */
  lemma MissesAreOff(w: World, i: Inputs, e: Entity)
    requires Distinct(i.extractors) && e in i.extractors && Extracts(w, e) && forall r :: !Aims(w, e, r)
    ensures StoreOf(ExtractStage(w, i), e) == StoreOf(w, e)
    ensures BeamOf(ExtractStage(w, i), e) == Some(w.entities[e].gear.extractor.value.(active := false))
  {
    ValidateMisses(w, e, i.sqrt);
    NothingDrawn(w, i, e);
  }

  /** A beam that is off stays off and draws nothing. */
  lemma IdleStays(w: World, i: Inputs, e: Entity)
    requires Distinct(i.extractors) && e in i.extractors && !Extracts(w, e)
    ensures StoreOf(ExtractStage(w, i), e) == StoreOf(w, e) && BeamOf(ExtractStage(w, i), e) == BeamOf(w, e)
  {
    ValidateIdle(w, e, i.sqrt);
    NothingDrawn(w, i, e);
  }

  lemma NothingDrawn(w: World, i: Inputs, e: Entity)
    requires Distinct(i.extractors) && e in i.extractors && !Validate(w, e, i.sqrt).Draw?
    ensures StoreOf(ExtractStage(w, i), e) == StoreOf(w, e)
    ensures BeamOf(ExtractStage(w, i), e) == if Validate(w, e, i.sqrt).Disable? && BeamOf(w, e).Some?
                                             then Some(BeamOf(w, e).value.(active := false)) else BeamOf(w, e)
  {
    hide Validate, Transfers, TransferAll, DisableAll, ExtractStage, Extracts, Aims;
    var before, after := VisitedOnce(i.extractors, e);
    StageSplit(w, i, e, before, after);
    DisabledAt(w, i.extractors, i.sqrt, e);
    var w0 := DisableAll(w, i.extractors, i.sqrt);
    var w1 := TransferAll(w0, Transfers(w, before, i.sqrt));
    forall k | 0 <= k < |Transfers(w, before, i.sqrt)| ensures Transfers(w, before, i.sqrt)[k].agent != e {
      TransfersBy(w, before, i.sqrt, k);
    }
    forall k | 0 <= k < |Transfers(w, after, i.sqrt)| ensures Transfers(w, after, i.sqrt)[k].agent != e {
      TransfersBy(w, after, i.sqrt, k);
    }
    TransfersElsewhere(w0, Transfers(w, before, i.sqrt), e);
    TransfersElsewhere(w1, Transfers(w, after, i.sqrt), e);
  }
}
