/**
  The trampolines in their own, imperative form: exchangers, the stack pointer and the words of
  blocks are overwritten in place. Each method makes the transition of Trampolines and says what it
  leaves alone; false stands for an access to what is not there.
 */
module Stacktrek {
  import opened Options
  import opened Continuations
  import opened Trampolines
  import opened Switching
  import opened Refinement

  class Runtime {
    var mem: map<nat, seq<nat>>
    var exchanger: map<nat, Sp>
    var live: set<nat>
    var heap: set<nat>
    var sp: Sp
    var stubs: map<nat, Stub>
    var res: map<nat, Res>

    ghost function Snapshot(): Machine
      reads this
    {
      Machine(mem, exchanger, live, heap, sp, stubs, res)
    }

    constructor ()
      ensures Snapshot() == BOOT
    {
      mem, exchanger, live, heap, sp, stubs, res := map[MAIN_BLOCK := []], map[], {MAIN_BLOCK}, {}, Sp(MAIN_BLOCK, 0),
          map[], map[];
    }

    method Push(v: nat) returns (ok: bool)
      modifies this`mem, this`sp
      ensures ok == DoPush(old(Snapshot()), v).Some? && (ok ==> Snapshot() == DoPush(old(Snapshot()), v).value)
    {
      ok := sp.block in mem && sp.height <= |mem[sp.block]|;
      if ok {
        mem := mem[sp.block := mem[sp.block][..sp.height] + [v]];
        sp := Sp(sp.block, sp.height + 1);
      }
    }

    method Pop() returns (ok: bool)
      modifies this`sp
      ensures ok == DoPop(old(Snapshot())).Some? && (ok ==> Snapshot() == DoPop(old(Snapshot())).value)
    {
      ok := sp.height > 0;
      if ok {
        sp := Sp(sp.block, sp.height - 1);
      }
    }

    method Poke(d: nat, v: nat) returns (ok: bool)
      modifies this`mem
      ensures ok == DoPoke(old(Snapshot()), d, v).Some? && (ok ==> Snapshot() == DoPoke(old(Snapshot()), d, v).value)
    {
      ok := sp.block in mem && sp.height <= |mem[sp.block]| && d < sp.height;
      if ok {
        mem := mem[sp.block := mem[sp.block][..sp.height][sp.height - 1 - d := v]];
      }
    }

    method GetStack(b: nat)
      modifies this`live, this`heap
      ensures live == old(live) + {b} && heap == HeapWith(old(heap), b)
    {
      live := live + {b};
      if b > POOL {
        heap := heap + {b};
      }
    }

    /** ENTER, up to the call of the body. */
    method Enter(h: nat, b: nat) returns (ok: bool)
      modifies this
      ensures ok == DoEnter(old(Snapshot()), h, b).Some? && (ok ==> Snapshot() == DoEnter(old(Snapshot()), h, b).value)
      ensures ok ==> sp.block == b && b !in old(live) && b in exchanger && exchanger[b] == old(sp)
      ensures forall c :: c in old(mem) && c != b ==> c in mem && mem[c] == old(mem)[c]
      ensures forall x :: x in old(exchanger) && x != b ==> x in exchanger && exchanger[x] == old(exchanger)[x]
    {
      ok := b !in live;
      if ok {
        GetStack(b);
        stubs := stubs[h := General(b)];
        exchanger := exchanger[b := sp];
        mem := mem[b := [b, b]];
        sp := Sp(b, LINK_WORDS);
      }
    }

    /** ENTER, from the return of the body. */
    method Leave() returns (ok: bool)
      modifies this`live, this`sp
      ensures ok == DoReturn(old(Snapshot())).Some? && (ok ==> Snapshot() == DoReturn(old(Snapshot())).value)
    {
      ok := sp.block in mem && sp.height == LINK_WORDS <= |mem[sp.block]| && mem[sp.block][0] in exchanger;
      if ok {
        live := live - {sp.block};
        sp := exchanger[mem[sp.block][0]];
      }
    }

    method Install(h: nat)
      modifies this`stubs
      ensures Some(Snapshot()) == DoInstall(old(Snapshot()), h)
    {
      stubs := stubs[h := InFrame(sp)];
    }

    /** RAISE, and RAISE_M with its resumption_t. */
    method Raise(h: nat, k: nat, single: bool) returns (ok: bool)
      modifies this`exchanger, this`sp, this`res
      ensures ok == DoRaise(old(Snapshot()), h, k, single).Some?
      ensures ok ==> Snapshot() == DoRaise(old(Snapshot()), h, k, single).value
      ensures ok ==> exists x ::
                x in old(exchanger) && stubs[h] == General(x) && sp == old(exchanger)[x]
                    && exchanger == old(exchanger)[x := old(sp)]
      ensures ok ==> k in res && SavedSp(Snapshot(), k) == Some(old(sp))
    {
      ok := h in stubs && stubs[h].General? && stubs[h].header in exchanger;
      if ok {
        var x := stubs[h].header;
        var context := exchanger[x];
        exchanger := exchanger[x := sp];
        res := res[k := if single then Single(x) else Multi(sp, x)];
        sp := context;
      }
    }

    method ReadExchanger(x: nat) returns (to: Option<Sp>)
      ensures to == if x in exchanger then Some(exchanger[x]) else None
    {
      to := if x in exchanger then Some(exchanger[x]) else None;
    }

    method RaiseAbort(h: nat) returns (ok: bool)
      modifies this`live, this`sp
      ensures ok == DoAbort(old(Snapshot()), h).Some? && (ok ==> Snapshot() == DoAbort(old(Snapshot()), h).value)
      ensures live == old(live) || live == old(live) - {old(sp).block}
      ensures ok && old(sp).block != MAIN_BLOCK ==>
                (old(sp).block in live <==> old(sp).block in old(live) && sp.block == old(sp).block)
    {
      if h !in stubs {
        return false;
      }
      var to := None;
      match stubs[h] {
        case InFrame(s) => to := Some(s);
        case General(x) => to := ReadExchanger(x);
      }
      ok := to.Some?;
      if ok {
        FreeStackOnAbort(to.value);
        sp := to.value;
      }
    }

    method FreeStackOnAbort(target: Sp)
      modifies this`live
      ensures live == FreeOnAbort(old(live), sp, target)
    {
      if sp.block == MAIN_BLOCK {
        return;
      }
      if sp.block == target.block {
        return;
      }
      live := live - {sp.block};
    }

    /** rsp_sp: for a single-shot resumption the word read is the exchanger. */
    method SavedSpOf(k: nat) returns (s: Option<Sp>)
      ensures s == SavedSp(Snapshot(), k)
    {
      if k !in res {
        return None;
      }
      match res[k]
      case Multi(at, _) => s := Some(at);
      case Single(x) => s := ReadExchanger(x);
    }

    /** RESUME: the exchanger takes the resumer's stack pointer. */
    method Resume(x: nat, to: Sp)
      modifies this`exchanger, this`sp
      ensures exchanger == old(exchanger)[x := old(sp)] && sp == to
    {
      exchanger := exchanger[x := sp];
      sp := to;
    }

    method Throw(k: nat, b: nat) returns (ok: bool)
      modifies this
      ensures ok == DoThrow(old(Snapshot()), k, b).Some? && (ok ==> Snapshot() == DoThrow(old(Snapshot()), k, b).value)
      ensures forall c :: c in old(mem) && c != b ==> c in mem && mem[c] == old(mem)[c]
      ensures ok ==> b !in old(live) && sp.block == b && b in mem && |mem[b]| == sp.height
                     && exchanger[res[k].header] == old(sp)
    {
      var from := SavedSpOf(k);
      ok := from.Some? && b !in live && from.value.block in mem && from.value.height <= |mem[from.value.block]|;
      if ok {
        GetStack(b);
        mem := mem[b := mem[from.value.block][..from.value.height]];
        Resume(res[k].header, Sp(b, from.value.height));
      }
    }

    method FinalThrow(k: nat) returns (ok: bool)
      modifies this`exchanger, this`sp
      ensures ok == DoFinalThrow(old(Snapshot()), k).Some?
      ensures (ok ==> Snapshot() == DoFinalThrow(old(Snapshot()), k).value)
    {
      var to := SavedSpOf(k);
      ok := to.Some?;
      if ok {
        Resume(res[k].header, to.value);
      }
    }

    method Perform(a: Action) returns (ok: bool)
      modifies this
      ensures ok == Do(old(Snapshot()), a).Some? && (ok ==> Snapshot() == Do(old(Snapshot()), a).value)
    {
      ok := true;
      match a {
        case Push(v) => ok := Push(v);
        case Pop => ok := Pop();
        case Poke(d, v) => ok := Poke(d, v);
        case Enter(h, b) => ok := Enter(h, b);
        case Return => ok := Leave();
        case Install(h) => Install(h);
        case Raise(h, _, k, single) => ok := Raise(h, k, single);
        case Abort(h, _) => ok := RaiseAbort(h);
        case Throw(k, b) => ok := Throw(k, b);
        case FinalThrow(k) => ok := FinalThrow(k);
        case Forget(_) =>
      }
    }

    /** A whole run from a fresh runtime stands for the run of the pile. */
    method PerformAll(acts: seq<Action>) returns (ok: bool, ghost g: Ground)
      requires Snapshot() == BOOT && AbleAll(START, acts) && AllFromPool(BOOT, acts)
      modifies this
      ensures ok && Implements(Snapshot(), ActAll(START, acts), g) && |g.lost| == LostByAll(START, acts)
    {
      hide Implements, Able, Act, Do, FromPool, LostBy;
      g := RunFromStart(acts);
      ok := true;
      var i := 0;
      while i < |acts| && ok
        invariant 0 <= i <= |acts| && ok
        invariant DoAll(Snapshot(), acts[i..]) == DoAll(BOOT, acts)
      {
        assert acts[i..][1..] == acts[i + 1..];
        ok := Perform(acts[i]);
        i := i + 1;
      }
      assert acts[i..] == [];
    }
  }
}
