/** AddSensor racing with a creation: one gateway, whose saga lists the stored sensors,
    builds the worker from them and registers it, while sensors come and go. */
module SensorRaces {
  import opened Domain

  /** The worker does not exist yet, was built from a listing, or is registered too. */
  datatype Phase = Unlisted | Built(sensors: seq<nat>) | Registered(sensors: seq<nat>)

  /** `pending` are the sensors stored by an AddSensor that has not yet looked for the
      worker. History: `listed` are the sensors the saga listed, `late` those whose
      AddSensor found the worker registered. */
  datatype State = State(
    stored: set<nat>,
    next: nat,
    pending: set<nat>,
    phase: Phase,
    listed: set<nat>,
    late: set<nat>)

  datatype Event = Insert | Look(id: nat) | Remove(id: nat) | List | Register

  function Listing(stored: set<nat>, n: nat): seq<nat> {
    if n == 0 then []
    else if n - 1 in stored then Listing(stored, n - 1) + [n - 1]
    else Listing(stored, n - 1)
  }

  function Step(s: State, e: Event): State {
    match e
    case Insert => s.(stored := s.stored + {s.next}, next := s.next + 1, pending := s.pending + {s.next})
    case Look(id) =>
      if id !in s.pending then s
      else if s.phase.Registered?
      then s.(pending := s.pending - {id}, phase := Registered(s.phase.sensors + [id]), late := s.late + {id})
      else s.(pending := s.pending - {id})
    case Remove(id) => s.(stored := s.stored - {id})
    case List =>
      if s.phase.Unlisted? then s.(phase := Built(Listing(s.stored, s.next)), listed := s.stored) else s
    case Register => if s.phase.Built? then s.(phase := Registered(s.phase.sensors)) else s
  }

  const EMPTY := State({}, 0, {}, Unlisted, {}, {})

  function Run(es: seq<Event>): State {
    if es == [] then EMPTY else Step(Run(es[..|es| - 1]), es[|es| - 1])
  }

  function Copies(sensors: seq<nat>, id: nat): nat {
    multiset(sensors)[id]
  }

  function Bit(b: bool): nat {
    if b then 1 else 0
  }

  lemma {:induction false} ListedOnce(stored: set<nat>, n: nat, id: nat)
    ensures Copies(Listing(stored, n), id) == Bit(id in stored && id < n)
  {
    if n > 0 {
      ListedOnce(stored, n - 1, id);
      if n - 1 in stored {
        assert multiset(Listing(stored, n - 1) + [n - 1]) == multiset(Listing(stored, n - 1)) + multiset([n - 1]);
      }
    }
  }

  ghost predicate Counts(s: State, sensors: seq<nat>) {
    forall id: nat :: Copies(sensors, id) == Bit(id in s.listed) + Bit(id in s.late)
  }

  ghost predicate Inv(s: State) {
    && (forall id :: id in s.stored ==> id < s.next)
    && (forall id :: id in s.pending ==> id < s.next && id !in s.late)
    && (forall id :: id in s.late ==> id < s.next)
    && (match s.phase
        case Unlisted => s.listed == {} && s.late == {}
        case Built(sensors) => s.late == {} && Counts(s, sensors)
        case Registered(sensors) => Counts(s, sensors))
  }

  lemma LookKeeps(s: State, id: nat)
    requires Inv(s)
    ensures Inv(Step(s, Look(id)))
  {
    if id in s.pending && s.phase.Registered? {
      var sensors := s.phase.sensors;
      assert multiset(sensors + [id]) == multiset(sensors) + multiset([id]);
    }
  }

  lemma ListKeeps(s: State)
    requires Inv(s)
    ensures Inv(Step(s, List))
  {
    if s.phase.Unlisted? {
      forall id: nat ensures Copies(Listing(s.stored, s.next), id) == Bit(id in s.stored) {
        ListedOnce(s.stored, s.next, id);
      }
    }
  }

  lemma {:induction false} RunKeeps(es: seq<Event>)
    ensures Inv(Run(es))
  {
    if es != [] {
      var s, e := Run(es[..|es| - 1]), es[|es| - 1];
      RunKeeps(es[..|es| - 1]);
      match e {
        case Look(id) => LookKeeps(s, id);
        case List => ListKeeps(s);
        case _ =>
      }
    }
  }

  /** In every interleaving the worker has each sensor as often as the listing and a
      late AddSensor put it there: not at all, once or twice. */
  lemma CopiesExact(es: seq<Event>, id: nat)
    requires Run(es).phase.Registered?
    ensures Copies(Run(es).phase.sensors, id) == Bit(id in Run(es).listed) + Bit(id in Run(es).late)
  {
    RunKeeps(es);
  }

  /** Once no AddSensor is under way, the worker has exactly the stored sensors, each
      once, if and only if each of them was either stored before the listing or looked
      for the worker after its registration, and not both, and the others neither. */
  lemma WorkerMatchesStoreExactly(es: seq<Event>)
    requires Run(es).phase.Registered? && Run(es).pending == {}
    ensures (forall id: nat :: Copies(Run(es).phase.sensors, id) == Bit(id in Run(es).stored))
       <==> Run(es).listed !! Run(es).late && Run(es).listed + Run(es).late == Run(es).stored
  {
    var s := Run(es);
    var sensors := s.phase.sensors;
    RunKeeps(es);
    if s.listed !! s.late && s.listed + s.late == s.stored {
      forall id: nat ensures Copies(sensors, id) == Bit(id in s.stored) {
        assert Bit(id in s.listed) + Bit(id in s.late) == Bit(id in s.listed + s.late);
      }
    }
    if forall id: nat :: Copies(sensors, id) == Bit(id in s.stored) {
      forall id: nat ensures Bit(id in s.listed) + Bit(id in s.late) == Bit(id in s.stored) {
        assert Copies(sensors, id) == Bit(id in s.stored);
      }
      assert s.listed !! s.late;
      assert s.listed + s.late == s.stored;
    }
  }

  /** Stored after the listing, and looked before the registration: the worker never
      gets the sensor. */
  lemma SensorMissed()
    ensures var s := Run([List, Insert, Look(0), Register]);
            s.phase == Registered([]) && s.stored == {0} && s.pending == {}
  {
    var es := [List, Insert, Look(0), Register];
    assert es[..3] == [List, Insert, Look(0)] && es[..3][..2] == [List, Insert] && es[..3][..2][..1] == [List];
    assert [List][..0] == [];
    assert Run([List]) == Step(EMPTY, List);
    assert Run([List, Insert]) == Step(Run([List]), Insert);
    assert Run(es[..3]) == Step(Run([List, Insert]), Look(0));
    assert Run(es) == Step(Run(es[..3]), Register);
  }

  /** Stored before the listing, and looked after the registration: it gets the sensor
      twice. */
  lemma SensorTwice()
    ensures var s := Run([Insert, List, Register, Look(0)]);
            s.phase == Registered([0, 0]) && s.stored == {0} && s.pending == {}
  {
    var es := [Insert, List, Register, Look(0)];
    assert es[..3] == [Insert, List, Register] && es[..3][..2] == [Insert, List] && es[..3][..2][..1] == [Insert];
    assert [Insert][..0] == [];
    assert Run([Insert]) == Step(EMPTY, Insert);
    assert Run([Insert, List]) == Step(Run([Insert]), List);
    assert Listing({0}, 1) == [0];
    assert Run(es[..3]) == Step(Run([Insert, List]), Register);
    assert Run(es) == Step(Run(es[..3]), Look(0));
  }
}
