/** The Browser's write authority: which control transport may carry input, and under which epoch.
    Every transition is an expression over the current state. */
module InputAuthority {
  import opened Collections

  const MAX_U64: nat := 0xffff_ffff_ffff_ffff
  const MAX_LEASE_LENGTH: nat := 128

  datatype Identity = Identity(writerFence: nat, inputEpoch: string, clientInputSeq: nat)

  /** A control transport. `handle` is the object's identity; the object that a revocation creates
      has none, so it differs from every transport a caller can attach. `writerFence` is the value of
      the decimal string; a malformed string is a value outside 1..MAX_U64. */
  datatype Transport = Transport(
    handle: Option<nat>,
    generation: int,
    writerFence: Option<int>,
    writerLease: Option<string>)

  datatype EpochState = EpochState(writerFence: nat, inputEpoch: string, nextSequence: nat)

  datatype ReadOnlyReason = MissingAuthority | StaleFence
  datatype SealReason = AuthorityRevoked | ReplacementRequired | TransportReplaced

  datatype AuthorityState =
    | Detached(highestWriterFence: nat)
    | ReadOnly(highestWriterFence: nat, transport: Transport, why: ReadOnlyReason)
    | Open(highestWriterFence: nat, transport: Transport, epoch: EpochState)
    | Sealed(highestWriterFence: nat, transport: Transport, epoch: EpochState, reason: SealReason)

  const INITIAL: AuthorityState := Detached(0)

  function PositiveWriterFence(value: Option<int>): (fence: Option<nat>) {
    if value.Some? && 0 < value.value <= MAX_U64 then Some(value.value) else None
  }

  function TransportOf(a: AuthorityState): Option<Transport> {
    if a.Detached? then None else Some(a.transport)
  }

  function EpochOf(a: AuthorityState): Option<EpochState> {
    if a.Open? || a.Sealed? then Some(a.epoch) else None
  }

  predicate UsableLease(lease: Option<string>) {
    lease.Some? && 0 < |lease.value| <= MAX_LEASE_LENGTH
  }

  /** A transport is accepted exactly when it carries a usable lease and a strictly newer fence. */
  predicate Accepts(current: AuthorityState, transport: Transport) {
    var fence := PositiveWriterFence(transport.writerFence);
    fence.Some? && UsableLease(transport.writerLease) && fence.value > current.highestWriterFence
  }

  function Attach(current: AuthorityState, transport: Transport, inputEpoch: string): AuthorityState {
    var fence := PositiveWriterFence(transport.writerFence);
    if Accepts(current, transport) then
      Open(fence.value, transport, EpochState(fence.value, inputEpoch, 1))
    else if current.Open? && current.transport == transport then
      current
    else if current.Sealed? then
      current.(transport := transport)
    else
      ReadOnly(current.highestWriterFence, transport,
               if fence.None? || transport.writerLease.None? then MissingAuthority else StaleFence)
  }

  function Detach(current: AuthorityState): AuthorityState {
    Detached(current.highestWriterFence)
  }

  function Revoke(current: AuthorityState): AuthorityState {
    if current.Detached? then current
    else
      var transport := Transport(None, current.transport.generation, None, None);
      match current
      case Open(highest, _, epoch) => Sealed(highest, transport, epoch, AuthorityRevoked)
      case Sealed(_, _, _, _) => current.(transport := transport)
      case ReadOnly(highest, _, _) => ReadOnly(highest, transport, MissingAuthority)
  }

  function Seal(current: AuthorityState, reason: SealReason): AuthorityState {
    if current.Open? then
      Sealed(current.highestWriterFence, current.transport, current.epoch, reason)
    else if !current.Sealed? then
      current
    else if current.reason == ReplacementRequired || current.reason == reason then
      current
    else
      current.(reason := if reason == ReplacementRequired then reason else current.reason)
  }

  predicate Belongs(a: AuthorityState, identity: Identity) {
    var epoch := EpochOf(a);
    epoch.Some? && epoch.value.writerFence == identity.writerFence
                && epoch.value.inputEpoch == identity.inputEpoch
  }

  /** The identity the next admission receives. */
  function NextIdentity(a: AuthorityState): Identity
    requires a.Open?
  {
    Identity(a.epoch.writerFence, a.epoch.inputEpoch, a.epoch.nextSequence)
  }

  function Allocate(a: AuthorityState): (r: AuthorityState)
    requires a.Open?
  {
    Open(a.highestWriterFence, a.transport,
         EpochState(a.epoch.writerFence, a.epoch.inputEpoch, a.epoch.nextSequence + 1))
  }

  /** The consistency the owner asserts after every turn. */
  predicate Consistent(a: AuthorityState) {
    && (a.Open? ==>
          && PositiveWriterFence(a.transport.writerFence) == Some(a.highestWriterFence)
          && UsableLease(a.transport.writerLease)
          && a.epoch.writerFence == a.highestWriterFence
          && a.epoch.nextSequence >= 1)
    && (a.Sealed? ==> 0 < a.epoch.writerFence <= a.highestWriterFence && a.epoch.nextSequence >= 1)
  }

  datatype Transition =
    | ToAttach(transport: Transport, inputEpoch: string)
    | ToDetach
    | ToRevoke
    | ToSeal(reason: SealReason)
    | ToAllocate

  function Step(a: AuthorityState, t: Transition): AuthorityState {
    match t
    case ToAttach(transport, epoch) => Attach(a, transport, epoch)
    case ToDetach => Detach(a)
    case ToRevoke => Revoke(a)
    case ToSeal(reason) => Seal(a, reason)
    case ToAllocate => if a.Open? then Allocate(a) else a
  }

  function Run(a: AuthorityState, ts: seq<Transition>): AuthorityState
    decreases ts
  {
    if ts == [] then a else Run(Step(a, ts[0]), ts[1..])
  }

  /** Identities are ordered by fence first, then by sequence number. */
  predicate Before(x: Identity, y: Identity) {
    x.writerFence < y.writerFence ||
    (x.writerFence == y.writerFence && x.clientInputSeq < y.clientInputSeq)
  }

  /** Over any run the fence never falls, consistency is kept, and writing that was closed reopens
      only under a strictly higher fence: if it is open again under the fence it had, it was open all
      along on the same transport and epoch, and only its next sequence number moved. */
  lemma {:induction false} ReopensOnlyUnderHigherFence(a: AuthorityState, ts: seq<Transition>)
    requires Consistent(a)
    ensures var b := Run(a, ts);
            && Consistent(b)
            && a.highestWriterFence <= b.highestWriterFence
            && (b.Open? && b.highestWriterFence == a.highestWriterFence ==>
                  && a.Open? && b.transport == a.transport
                  && b.epoch == a.epoch.(nextSequence := b.epoch.nextSequence)
                  && b.epoch.nextSequence >= a.epoch.nextSequence)
    decreases ts
  {
    if ts != [] {
      ReopensOnlyUnderHigherFence(Step(a, ts[0]), ts[1..]);
    }
  }

  /** Every identity a run allocates is new: two allocations at different points never coincide. */
  lemma AllocationsAreUnique(a: AuthorityState, ts: seq<Transition>)
    requires Consistent(a) && a.Open?
    ensures var b := Run(Allocate(a), ts);
            b.Open? ==> Before(NextIdentity(a), NextIdentity(b))
  {
    ReopensOnlyUnderHigherFence(Allocate(a), ts);
  }

  /** The need for replacement survives everything but an accepted transport or a detachment. */
  lemma {:induction false} ReplacementStaysRequired(a: AuthorityState, ts: seq<Transition>)
    requires a.Sealed? && a.reason == ReplacementRequired
    requires forall t :: t in ts ==> !t.ToDetach? &&
                                     (t.ToAttach? ==> !Accepts(a, t.transport))
    ensures var b := Run(a, ts); b.Sealed? && b.reason == ReplacementRequired && b.epoch == a.epoch
    decreases ts
  {
    if ts != [] {
      var next := Step(a, ts[0]);
      assert forall t :: t in ts[1..] ==> t in ts;
      ReplacementStaysRequired(next, ts[1..]);
    }
  }
}
