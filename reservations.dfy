/** Stock reservations: one document per (shopper, product) in the
    `reservations` collection, holding the quantity the shopper has in the
    cart and the moment the hold lapses. Writes are made on behalf of the
    signed-in account and do nothing when nobody is signed in. */
module Reservations {
  import opened Common

  /** How long an upserted reservation holds, in minutes. */
  const HOLD_MINUTES: int := 15

  const MS_PER_MINUTE: int := 60 * 1000

  /** The document id `${uid}_${productId}`. */
  function ReservationDocId(uid: string, productId: string): string {
    uid + "_" + productId
  }

  /** Account ids issued by the auth provider contain no underscore; for
      such ids the document id determines both parts. */
  lemma DocIdInjective(uid1: string, p1: string, uid2: string, p2: string)
    requires '_' !in uid1 && '_' !in uid2
    requires ReservationDocId(uid1, p1) == ReservationDocId(uid2, p2)
    ensures uid1 == uid2 && p1 == p2
  {
    var d := ReservationDocId(uid1, p1);
    assert d[|uid1|] == '_' && d[|uid2|] == '_';
    assert forall i :: 0 <= i < |uid1| ==> d[i] == uid1[i] != '_';
    assert forall i :: 0 <= i < |uid2| ==> d[i] == uid2[i] != '_';
    assert uid1 == d[..|uid1|] == uid2;
    assert p1 == d[|uid1| + 1..] == p2;
  }

  /** For one account, different products never share a document. */
  lemma DocIdInjectiveForUser(uid: string, p1: string, p2: string)
    requires ReservationDocId(uid, p1) == ReservationDocId(uid, p2)
    ensures p1 == p2
  {
    assert p1 == ReservationDocId(uid, p1)[|uid| + 1..];
  }

  /** Without the restriction on account ids, two (account, product) pairs
      can share a document. */
  lemma DocIdCollidesWithUnderscoreInUid()
    ensures ReservationDocId("a_b", "c") == ReservationDocId("a", "b_c")
  {
  }

  /** `expiresInMinutes(minutes)`: the clock reading `now` plus that many
      minutes, in milliseconds. */
  function ExpiresInMinutes(now: int, minutes: int): (r: int)
    ensures r - now == minutes * MS_PER_MINUTE
  {
    now + minutes * 60 * 1000
  }

  /** A reservation document. `other` holds any fields the document has
      besides the five that an upsert writes. */
  datatype Reservation = Reservation(
    uid: string,
    productId: string,
    qty: int,
    expiresAt: int,
    updatedAt: int,
    other: map<string, Value>)

  /** The document after `setDoc(ref, { uid, productId, qty, expiresAt,
      updatedAt }, { merge: true })`: the five fields are replaced and any
      other field of an existing document is kept. */
  function Merged(existing: Option<Reservation>, uid: string, productId: string, qty: int, now: int, serverTime: int): (r: Reservation)
    ensures r.uid == uid && r.productId == productId && r.qty == qty
    ensures r.expiresAt == now + HOLD_MINUTES * MS_PER_MINUTE && r.updatedAt == serverTime
    ensures r.other == if existing.Some? then existing.value.other else map[]
  {
    Reservation(uid, productId, qty, ExpiresInMinutes(now, HOLD_MINUTES), serverTime,
                if existing.Some? then existing.value.other else map[])
  }

  /** The collection after `upsertReservation(productId, qty)`. */
  function UpsertDocs(docs: map<string, Reservation>, user: Option<AuthUser>, productId: string, qty: int, now: int, serverTime: int): (r: map<string, Reservation>)
    ensures user.None? ==> r == docs
    ensures user.Some? ==>
      var id := ReservationDocId(user.value.uid, productId);
      && r.Keys == docs.Keys + {id}
      && r[id].qty == qty && r[id].uid == user.value.uid && r[id].productId == productId
      && r[id].expiresAt == now + 900000
      && (id in docs ==> r[id].other == docs[id].other)
      && forall k :: k in docs && k != id ==> r[k] == docs[k]
  {
    match user
    case None => docs
    case Some(u) =>
      var id := ReservationDocId(u.uid, productId);
      docs[id := Merged(if id in docs then Some(docs[id]) else None, u.uid, productId, qty, now, serverTime)]
  }

  /** The collection after `deleteReservation(productId)`. */
  function DeleteDocs(docs: map<string, Reservation>, user: Option<AuthUser>, productId: string): (r: map<string, Reservation>)
    ensures user.None? ==> r == docs
    ensures user.Some? ==>
      var id := ReservationDocId(user.value.uid, productId);
      && r.Keys == docs.Keys - {id}
      && forall k :: k in r ==> r[k] == docs[k]
  {
    match user
    case None => docs
    case Some(u) => docs - {ReservationDocId(u.uid, productId)}
  }

  /** The `reservations` collection as the client writes it. */
  class ReservationStore {
    var docs: map<string, Reservation>

    constructor()
      ensures docs == map[]
    {
      docs := map[];
    }

    method Upsert(user: Option<AuthUser>, productId: string, qty: int, now: int, serverTime: int)
      modifies this
      ensures docs == UpsertDocs(old(docs), user, productId, qty, now, serverTime)
    {
      if user.None? {
        return;
      }
      var id := ReservationDocId(user.value.uid, productId);
      var existing := if id in docs then Some(docs[id]) else None;
      docs := docs[id := Merged(existing, user.value.uid, productId, qty, now, serverTime)];
    }

    method Delete(user: Option<AuthUser>, productId: string)
      modifies this
      ensures docs == DeleteDocs(old(docs), user, productId)
    {
      if user.None? {
        return;
      }
      docs := docs - {ReservationDocId(user.value.uid, productId)};
    }
  }

  /** What `isActiveReservation` may be handed: a database timestamp (it has
      `toDate`), a `Date` whose time may be invalid, a value whose `toDate`
      throws, or anything else. */
  datatype ExpiryInput =
    | Timestamp(ms: int)
    | DateObject(time: JsNum)
    | ThrowingToDate
    | NotADate

  /** `isActiveReservation(expiresAt)` with the clock reading `now`. */
  function IsActiveReservation(e: ExpiryInput, now: int): (r: bool)
    ensures r ==> e.Timestamp? || (e.DateObject? && e.time.Finite?)
    ensures e.Timestamp? ==> (r <==> e.ms > now)
    ensures e.DateObject? ==> (r <==> e.time.Finite? && e.time.v > now)
  {
    match e
    case Timestamp(ms) => ms > now
    case DateObject(t) => t.Finite? && t.v > now
    case ThrowingToDate => false
    case NotADate => false
  }

  /** A reservation upserted at clock reading `now` is active for exactly
      the next fifteen minutes, and lapses at `now + 900000`. */
  lemma {:induction false} HoldWindow(docs: map<string, Reservation>, u: AuthUser, productId: string, qty: int, now: int, serverTime: int, t: int)
    ensures
      var r := UpsertDocs(docs, Some(u), productId, qty, now, serverTime);
      var id := ReservationDocId(u.uid, productId);
      IsActiveReservation(Timestamp(r[id].expiresAt), t) <==> t < now + HOLD_MINUTES * MS_PER_MINUTE
  {
  }
}
