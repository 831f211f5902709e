/**
 * The seven local event kinds of the tracker, the event values that are
 * dispatched, and the string names by which handlers are registered.
 */
module Events {
  import opened Wrappers

  datatype EventKind = Exp | Kill | Death | Teamkill | Capture | Defend | Vehicle

  /** An event as far as the core looks at it: its kind tag and its timestamp (epoch ms). */
  datatype Event = Event(kind: EventKind, timestamp: int)

  /** Handlers are opaque callbacks; the model identifies each by a number. */
  type HandlerId = nat

  const AllKinds: set<EventKind> := {Exp, Kill, Death, Teamkill, Capture, Defend, Vehicle}

  lemma AllKindsComplete(k: EventKind)
    ensures k in AllKinds
  {
  }

  /** The string tag of each kind, as used by `on` and by an event's `type` field. */
  function KindName(k: EventKind): string
  {
    match k
    case Exp => "exp"
    case Kill => "kill"
    case Death => "death"
    case Teamkill => "teamkill"
    case Capture => "capture"
    case Defend => "defend"
    case Vehicle => "vehicle"
  }

  /** The `switch (type)` of `on`: a known tag selects its kind, anything else is the default case. */
  function ParseKind(name: string): (r: Option<EventKind>)
    ensures forall k :: r == Some(k) <==> KindName(k) == name
    ensures r == None <==> forall k :: KindName(k) != name
  {
    if name == "exp" then Some(Exp)
    else if name == "kill" then Some(Kill)
    else if name == "death" then Some(Death)
    else if name == "teamkill" then Some(Teamkill)
    else if name == "capture" then Some(Capture)
    else if name == "defend" then Some(Defend)
    else if name == "vehicle" then Some(Vehicle)
    else None
  }

  /**
   * The handler list that `on` appends to for a kind. As written in the
   * source, a `teamkill` handler is pushed onto the `death` list, so the
   * `teamkill` list is never the target of a registration.
   */
  function ListFor(k: EventKind): (target: EventKind)
    ensures target != Teamkill
    ensures k != Teamkill ==> target == k
    ensures k == Teamkill ==> target == Death
  {
    if k == Teamkill then Death else k
  }

  /** Exactly two kinds share the `death` list; every other list receives one kind. */
  lemma ListForSharing(k: EventKind, k': EventKind)
    ensures ListFor(k) == ListFor(k') <==> k == k' || (k in {Death, Teamkill} && k' in {Death, Teamkill})
  {
  }
}
