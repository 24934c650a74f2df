/** One rank of the message-passing barrier updated in place: the call, its rounds, and the send with its
    single retry. */
module FabricDevice {
  import opened Dissemination
  import opened FabricBarrier

  /** Actions of rank r with the given answers of the send queue, each enabled in turn. */
  ghost predicate Path(c: Config, r: nat, from: Rank, to: Rank, fulls: seq<bool>)
    requires r < c.size
    decreases |fulls|
  {
    Fits(c, from) &&
    if fulls == [] then to == from
    else CpuEnabled(c, from) && Path(c, r, CpuNext(c, r, from, fulls[0]), to, fulls[1..])
  }

  lemma {:induction false} PathGrows(c: Config, r: nat, from: Rank, to: Rank, fulls: seq<bool>, full: bool)
    requires r < c.size && Path(c, r, from, to, fulls)
    requires Fits(c, to) && CpuEnabled(c, to) && Fits(c, CpuNext(c, r, to, full))
    ensures Path(c, r, from, CpuNext(c, r, to, full), fulls + [full])
    decreases |fulls|
  {
    if fulls == [] {
      assert Path(c, r, CpuNext(c, r, to, full), CpuNext(c, r, to, full), []);
    } else {
      PathGrows(c, r, CpuNext(c, r, from, fulls[0]), to, fulls[1..], full);
      assert (fulls + [full])[1..] == fulls[1..] + [full];
    }
  }

  /** The schedule in which rank r makes these actions one after the other. */
  function Events(r: nat, fulls: seq<bool>): (evs: seq<Event>)
    ensures |evs| == |fulls|
  {
    seq(|fulls|, i requires 0 <= i < |fulls| => Cpu(r, fulls[i]))
  }

  /** What the object does in place is a schedule of the state machine. */
  lemma {:induction false} PathIsARun(c: Config, schedule: seq<Event>, r: nat, to: Rank, fulls: seq<bool>)
    requires Shape(c, Run(c, schedule)) && r < c.size && Path(c, r, Run(c, schedule)[r], to, fulls)
    ensures Run(c, schedule + Events(r, fulls)) == Run(c, schedule)[r := to]
    decreases |fulls|
  {
    if fulls == [] {
      assert schedule + Events(r, fulls) == schedule;
    } else {
      var longer := schedule + [Cpu(r, fulls[0])];
      RunOneMore(c, schedule, Cpu(r, fulls[0]));
      assert Fits(c, CpuNext(c, r, Run(c, schedule)[r], fulls[0]));
      PathIsARun(c, longer, r, to, fulls[1..]);
      EventsSplit(schedule, r, fulls);
    }
  }

  lemma RunOneMore(c: Config, schedule: seq<Event>, ev: Event)
    requires Shape(c, Run(c, schedule)) && Enabled(c, Run(c, schedule), ev)
    ensures Run(c, schedule + [ev]) == Step(c, Run(c, schedule), ev)
  {
    var longer := schedule + [ev];
    assert longer[..|longer| - 1] == schedule && longer[|longer| - 1] == ev;
    assert Run(c, longer) == Next(c, Run(c, longer[..|longer| - 1]), longer[|longer| - 1]);
  }

  lemma EventsSplit(schedule: seq<Event>, r: nat, fulls: seq<bool>)
    requires fulls != []
    ensures (schedule + [Cpu(r, fulls[0])]) + Events(r, fulls[1..]) == schedule + Events(r, fulls)
  {
  }

  class Device {
    const c: Config
    const me: nat
    const rounds: nat
    const out: array<seq<Token>>
    var pc: Pc
    var bar: nat
    var recvs: seq<nat>
    var cq: nat
    var lost: nat
    var errors: nat

    ghost function Now(): Rank
      reads this, out
    {
      Rank(pc, bar, recvs, cq, lost, errors, out[..])
    }

    ghost predicate Valid()
      reads this, out
    {
      me < c.size && rounds == c.Rounds() && Fits(c, Now())
    }

    /** The halving loop computes the number of rounds. */
    constructor (c: Config, me: nat)
      requires c.Valid() && me < c.size
      ensures Valid() && this.c == c && this.me == me && fresh(out) && Now() == Init(c)[me]
    {
      this.c, this.me := c, me;
      var n := CountByHalving(c.size);
      rounds := n;
      out := new seq<Token>[c.size](_ => []);
      pc, bar, recvs, cq, lost, errors := Outside, 0, [], 0, 0, 0;
      new;
      assert out[..] == seq(c.size, t => []);
    }

    /** Takes one completion if there is one. */
    method Drain()
      modifies this`cq, this`lost
      ensures cq + lost == old(cq) + old(lost) && lost == old(lost) + if old(cq) > 0 then 1 else 0
    {
      if cq > 0 {
        cq := cq - 1;
        lost := lost + 1;
      }
    }

    method Inject(k: nat)
      requires Valid() && InRound(Now()) && pc.k == k
      modifies this`pc, out
      ensures Valid() && Now() == Send(c, me, old(Now()))
    {
      var t := SendTo(c.size, k, me);
      out[t] := out[t] + [Token(bar, k)];
      pc := Waiting(k);
    }

    /** One action of the call, or none while it waits. */
    method Action(full: bool) returns (moved: bool)
      requires Valid()
      modifies this`pc, this`bar, this`recvs, this`cq, this`lost, this`errors, out
      ensures Valid() && moved == CpuEnabled(c, old(Now()))
      ensures Now() == if moved then CpuNext(c, me, old(Now()), full) else old(Now())
    {
      moved := true;
      match pc {
        case Outside =>
          if bar >= c.calls { return false; }
          bar := bar + 1;
          pc := AtRound(0);
        case AtRound(k) =>
          if k < rounds {
            recvs := recvs + [k];
            pc := Pc.Inject(k);
          } else {
            pc := Outside;
          }
        case Inject(k) =>
          if full {
            Drain();
            pc := Retry(k);
          } else {
            Inject(k);
          }
        case Retry(k) =>
          if full {
            errors := errors + 1;
            pc := Failed(k);
          } else {
            Inject(k);
          }
        case Waiting(k) =>
          if cq == 0 { return false; }
          cq := cq - 1;
          pc := AtRound(k + 1);
        case Failed(_) =>
          if bar >= c.calls { return false; }
          bar := bar + 1;
          pc := AtRound(0);
      }
    }

    /** The caller has control: the last call has finished its rounds, or has given up. */
    predicate Returned()
      reads this
    {
      pc.Outside? || pc.Failed?
    }

    /** A call of the barrier, or its continuation: it goes on until it waits for a completion, has returned,
        or `fulls`, the answers of the send queue, are used up. */
    method Barrier(fulls: seq<bool>) returns (used: nat)
      requires Valid() && (Returned() ==> bar < c.calls)
      modifies this`pc, this`bar, this`recvs, this`cq, this`lost, this`errors, out
      ensures Valid() && used <= |fulls| && Path(c, me, old(Now()), Now(), fulls[..used])
      ensures used == |fulls| || (used > 0 && Returned()) || !CpuEnabled(c, Now())
      ensures bar == old(bar) + if old(Returned()) && used > 0 then 1 else 0
    {
      used := 0;
      ghost var first := Now();
      while used < |fulls|
        invariant Valid() && used <= |fulls| && Path(c, me, first, Now(), fulls[..used])
        invariant used > 0 ==> !Returned()
        invariant bar == old(bar) + if old(Returned()) && used > 0 then 1 else 0
      {
        ghost var before := Now();
        var moved := Action(fulls[used]);
        if !moved { break; }
        PathGrows(c, me, first, before, fulls[..used], fulls[used]);
        assert fulls[..used + 1] == fulls[..used] + [fulls[used]];
        used := used + 1;
        if Returned() { break; }
      }
    }
  }
}
