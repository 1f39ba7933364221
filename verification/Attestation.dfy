/** The age attestation of one account: an optimistic transaction over the profile, one receipt per
    operation, and the deletion fence. */
module Attestation {
  import opened Basics

  type Operation = nat
  type Instant = nat
  type Hash = nat

  const POLICY := 1
  const RECEIPT_TTL := 7 * 24 * 60 * 60
  const ATTEMPTS := 3

  datatype Status = PendingAgeGate | Active | DeletionRequested
  datatype Profile = Profile(status: Status, updatedAt: Instant, verified: bool, verifiedAt: Option<Instant>, policy: Option<nat>)

  datatype Receipt = Receipt(hash: Hash, attestedAt: Instant, expiresAt: nat)

  datatype Result =
    | Attested(at: Instant, replayed: bool)
    | IdempotencyConflict
    | AccountConflict
    | NotFound
    | Unavailable

  predicate Mutable(p: Profile) { p.status.PendingAgeGate? || p.status.Active? }

  /** The profile carries an attestation under the present policy. */
  predicate Carries(p: Profile) { p.verified && p.policy == Some(POLICY) && p.verifiedAt.Some? }

  /** From here on the attested time stays. */
  predicate Settled(p: Option<Profile>) { p.Some? && Carries(p.value) && !p.value.status.PendingAgeGate? }

  predicate Current(p: Profile) { p.status.Active? && Carries(p) }

  class AttestedAccount {
    var profile: Option<Profile>
    var receipts: map<Operation, Receipt>
    var fence: bool
    /** How often the attestation time was written; no operation reads it. */
    ghost var writes: nat
    /** The times written through this object; no operation reads it. */
    ghost var own: seq<Instant>

    /** All receipts agree with the one time the profile carries. */
    ghost predicate Valid()
      reads this
    {
      && writes <= 1
      && (writes == 1 || receipts != map[] ==> Settled(profile))
      && (forall o :: o in receipts ==> Some(receipts[o].attestedAt) == profile.value.verifiedAt)
    }

    /** Receipts may lapse, but a settled attestation time is never another. Behind the fence no
        receipt appears and no time is written. */
    twostate predicate Continues()
      reads this
    {
      && (old(fence) ==> fence && Shrinks(old(receipts), receipts) && writes == old(writes))
      && old(writes) <= writes
      && (Settled(old(profile)) ==> Settled(profile) && profile.value.verifiedAt == old(profile).value.verifiedAt)
    }

    constructor (profile: Option<Profile>)
      ensures Valid() && writes == 0 && own == []
    {
      this.profile, receipts, fence, writes, own := profile, map[], false, 0, [];
    }

    /** Other operations of this module, deletion requests, and changes elsewhere in the profile.
        Callers rely on this contract alone. */
    method Interfere()
      requires Valid()
      modifies this
      ensures Valid() && Continues() && own == old(own)
    {
    }

    /** No fence, the profile exactly as seen, no receipt for the operation: then all or nothing. */
    method Write(op: Operation, seen: Profile, receipt: Receipt, update: bool) returns (committed: bool, unknown: bool)
      requires Valid() && Mutable(seen)
      requires update <==> !Current(seen)
      requires !update ==> seen.verifiedAt == Some(receipt.attestedAt)
      modifies this
      ensures Valid() && Continues()
      ensures own == old(own) || (update && own == old(own) + [receipt.attestedAt])
      ensures if committed then update <==> own != old(own) else unknown || own == old(own)
      ensures committed ==> !fence && op in receipts && receipts[op] == receipt && profile.Some? && profile.value.verifiedAt == Some(receipt.attestedAt)
    {
      Interfere();
      committed, unknown := false, false;
      if !fence && profile == Some(seen) && op !in receipts {
        if update {
          profile := Some(Profile(Active, receipt.attestedAt, true, Some(receipt.attestedAt), Some(POLICY)));
          writes, own := writes + 1, own + [receipt.attestedAt];
        }
        receipts := receipts[op := receipt];
        if * { unknown := true; } else { committed := true; }
      } else if * {
        unknown := true;
      }
    }

    /** A replay commits only conditions: no fence, an active profile with the very time of the
        receipt, and the receipt still there. */
    method Replay(op: Operation, hash: Hash, seen: Receipt, now: nat) returns (r: Result)
      requires Valid()
      modifies this
      ensures Valid() && Continues()
      ensures own == old(own)
      ensures r.Attested? ==> r == Attested(seen.attestedAt, true) && !fence && op in receipts && receipts[op].hash == hash == seen.hash
      ensures r.Attested? ==> profile.Some? && Current(profile.value) && profile.value.verifiedAt == Some(r.at) && now <= seen.expiresAt && now <= receipts[op].expiresAt
      ensures r.Attested? || r.IdempotencyConflict? || r.AccountConflict? || r.Unavailable?
    {
      if seen.hash != hash || seen.expiresAt < now { return IdempotencyConflict; }
      Interfere();
      if !fence && profile.Some? && Current(profile.value) && profile.value.verifiedAt == Some(seen.attestedAt)
         && op in receipts && receipts[op].hash == hash && receipts[op].expiresAt >= now {
        return Attested(seen.attestedAt, true);
      }
      if * { return Unavailable; }
      r := AccountConflict;
    }

    /** At most three optimistic attempts; a receipt that appears in between is replayed. Whatever
        the interleaving, an answer carries the one time the profile carries. A time that is written is the
        clock reading; a new answer leaves a receipt of the request's hash for seven days. */
    method Process(op: Operation, hash: Hash, now: nat, clock: Instant) returns (r: Result)
      requires Valid()
      modifies this
      ensures Valid() && Continues()
      ensures r.Attested? ==> !fence && op in receipts && profile.Some? && profile.value.verifiedAt == Some(r.at) == Some(receipts[op].attestedAt)
      ensures own == old(own) || own == old(own) + [clock]
      ensures r.Attested? && own != old(own) ==> r == Attested(clock, false)
      ensures r.Attested? && !r.replayed ==> receipts[op] == Receipt(hash, r.at, now + 604800)
      ensures r.Attested? && r.replayed ==> own == old(own) && receipts[op].hash == hash && now <= receipts[op].expiresAt
    {
      Interfere();
      if op in receipts {
        r := Replay(op, hash, receipts[op], now);
        return;
      }
      var attempt := 0;
      while attempt < ATTEMPTS
        invariant Valid() && Continues() && 0 <= attempt <= ATTEMPTS && own == old(own)
      {
        Interfere();
        if profile.None? { return NotFound; }
        var seen := profile.value;
        if !Mutable(seen) { return AccountConflict; }
        var update := !Current(seen);
        var at := if update then clock else seen.verifiedAt.value;
        var committed, unknown := Write(op, seen, Receipt(hash, at, now + RECEIPT_TTL), update);
        if committed { return Attested(at, false); }
        if unknown { return Unavailable; }
        Interfere();
        if op in receipts {
          r := Replay(op, hash, receipts[op], now);
          return;
        }
        attempt := attempt + 1;
      }
      r := AccountConflict;
    }
  }
}
