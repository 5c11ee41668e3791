/** Relay enrolment: pairing records, certificate rotation with a bounded overlap, and irreversible
    revocation. Operation times come from the caller.
 */
module Enrollment {
  import opened Domain

  /** Nanoseconds; 0 is the unset instant. */
  type Instant = int

  const UNSET: Instant := 0
  const SECOND := 1_000_000_000
  const HOUR := 3600 * SECOND
  const MAX_PAIRING_LIFETIME := 600 * SECOND
  const MAX_CERTIFICATE_LIFETIME := 30 * 24 * HOUR
  const ROTATION_LEAD := 7 * 24 * HOUR
  const MAX_OVERLAP := 24 * HOUR

  /** Digests; 0 stands for the all-zero value. */
  type Verifier = nat
  type Fingerprint = nat

  datatype PairingState = Pending | Consumed

  datatype CertificateState = ActiveCert | RetiringCert | RevokedCert

  datatype Pairing = Pairing(verifier: Verifier, tenant: string, installation: string, createdAt: Instant,
      expiresAt: Instant, state: PairingState, consumedAt: Instant)

  datatype Certificate = Certificate(
    tenant: string, installation: string, fingerprint: Fingerprint, serial: string, uri: string,
    notBefore: Instant, notAfter: Instant, state: CertificateState, createdAt: Instant, retireAt: Instant,
      revokedAt: Instant)

  datatype Store = Store(pairings: map<Verifier, Pairing>, certificates: map<Fingerprint, Certificate>,
      revoked: map<(string, string), Instant>)

  datatype Op =
    | CreatePairing(record: Pairing)
    | Redeem(verifier: Verifier, tenant: string, installation: string, at: Instant, certificate: Certificate)
    | Rotate(tenant: string, installation: string, current: Fingerprint, replacement: Certificate, at: Instant,
      overlap: int)
    | RevokeCertificate(tenant: string, installation: string, fingerprint: Fingerprint, at: Instant)
    | RevokeInstallation(tenant: string, installation: string, at: Instant)

  // ---------------------------------------------------------------- identifiers and serials

  predicate LowerHex(c: char) {
    '0' <= c <= '9' || 'a' <= c <= 'f'
  }

  predicate Dash(i: nat) {
    i == 8 || i == 13 || i == 18 || i == 23
  }

  predicate ValidUuid7(s: string) {
    && |s| == 36
    && (forall i :: 0 <= i < 36 ==> if Dash(i) then s[i] == '-' else LowerHex(s[i]))
    && s[14] == '7'
    && (s[19] == '8' || s[19] == '9' || s[19] == 'a' || s[19] == 'b')
  }

  function HexDigit(c: char): Option<nat> {
    if '0' <= c <= '9' then Some(c as int - '0' as int)
    else if 'a' <= c <= 'f' then Some(c as int - 'a' as int + 10)
    else if 'A' <= c <= 'F' then Some(c as int - 'A' as int + 10)
    else None
  }

  predicate HexString(s: string) {
    |s| % 2 == 0 && forall i :: 0 <= i < |s| ==> HexDigit(s[i]).Some?
  }

  function HexBytes(s: string): seq<nat>
    requires HexString(s)
  {
    seq(|s| / 2, i requires 0 <= i < |s| / 2 => 16 * HexDigit(s[2 * i]).value + HexDigit(s[2 * i + 1]).value)
  }

  /** Twenty bytes whose first has its second-highest bit set. */
  predicate ValidSerial(s: string) {
    HexString(s) && |HexBytes(s)| == 20 && (HexBytes(s)[0] / 64) % 2 == 1
  }

  function InstallationUri(installation: string): string {
    "spiffe://scalevault/installation/" + installation
  }

  // ---------------------------------------------------------------- records

  predicate ValidPairing(p: Pairing) {
    && p.verifier != 0 && ValidUuid7(p.tenant) && ValidUuid7(p.installation)
    && p.state == Pending && p.consumedAt == UNSET
    && p.createdAt != UNSET && p.expiresAt > p.createdAt && p.expiresAt - p.createdAt <= MAX_PAIRING_LIFETIME
  }

  predicate ValidCertificate(c: Certificate) {
    && c.fingerprint != 0 && ValidUuid7(c.tenant) && ValidUuid7(c.installation)
    && c.state == ActiveCert && c.revokedAt == UNSET && c.retireAt == UNSET
    && c.createdAt != UNSET && c.notBefore != UNSET && c.notAfter > c.notBefore
    && c.notAfter - c.notBefore <= MAX_CERTIFICATE_LIFETIME
    && ValidSerial(c.serial) && c.createdAt == c.notBefore && c.uri == InstallationUri(c.installation)
  }

  /** Usable at `now`, installation revocation aside. */
  predicate ActiveAt(c: Certificate, now: Instant) {
    && c.notBefore <= now < c.notAfter && c.revokedAt == UNSET
    && (c.state == ActiveCert || (c.state == RetiringCert && c.retireAt != UNSET && now < c.retireAt))
  }

  predicate Of(c: Certificate, tenant: string, installation: string) {
    c.tenant == tenant && c.installation == installation
  }

  // ---------------------------------------------------------------- operations

  predicate AnyActive(s: Store, tenant: string, installation: string, now: Instant) {
    exists f :: f in s.certificates && Of(s.certificates[f], tenant, installation) && ActiveAt(s.certificates[f], now)
  }

  predicate AnySerial(s: Store, serial: string) {
    exists f :: f in s.certificates && s.certificates[f].serial == serial
  }

  predicate MayCreate(s: Store, p: Pairing) {
    ValidPairing(p) && p.verifier !in s.pairings && (p.tenant, p.installation) !in s.revoked
  }

  predicate MayRedeem(s: Store, op: Op)
    requires op.Redeem?
  {
    && ValidUuid7(op.tenant) && ValidUuid7(op.installation) && op.at != UNSET && ValidCertificate(op.certificate)
    && op.verifier in s.pairings
    && (var p := s.pairings[op.verifier];
        && p.verifier == op.verifier && p.state == Pending && p.tenant == op.tenant && p.installation == op.installation
        && p.createdAt <= op.at < p.expiresAt)
    && Of(op.certificate, op.tenant, op.installation)
    && ActiveAt(op.certificate, op.at)
    && (op.tenant, op.installation) !in s.revoked
    && !AnyActive(s, op.tenant, op.installation, op.at)
    && op.certificate.fingerprint !in s.certificates
    && !AnySerial(s, op.certificate.serial)
  }

  predicate MayRotate(s: Store, op: Op)
    requires op.Rotate?
  {
    && ValidUuid7(op.tenant) && ValidUuid7(op.installation) && op.at != UNSET
    && 0 < op.overlap <= MAX_OVERLAP && ValidCertificate(op.replacement)
    && (op.tenant, op.installation) !in s.revoked
    && op.current in s.certificates
    && (var c := s.certificates[op.current];
        && c.state == ActiveCert && Of(c, op.tenant, op.installation) && ActiveAt(c, op.at)
        && op.at >= c.notAfter - ROTATION_LEAD
        && op.at + op.overlap < c.notAfter)
    && Of(op.replacement, op.tenant, op.installation) && ActiveAt(op.replacement, op.at)
    && op.replacement.fingerprint != op.current
    && op.replacement.fingerprint !in s.certificates
    && !AnySerial(s, op.replacement.serial)
  }

  function Revoked(c: Certificate, at: Instant): Certificate {
    if c.state == RevokedCert then c else c.(state := RevokedCert, revokedAt := at)
  }

  function RevokeAll(certificates: map<Fingerprint, Certificate>, tenant: string, installation: string,
      at: Instant): map<Fingerprint, Certificate> {
    map f | f in certificates ::
      if Of(certificates[f], tenant, installation) then Revoked(certificates[f], at) else certificates[f]
  }

  predicate MayRevokeInstallation(s: Store, tenant: string, installation: string, at: Instant) {
    && ValidUuid7(tenant) && ValidUuid7(installation) && at != UNSET
    && ((tenant, installation) in s.revoked
        || forall f :: f in s.certificates && Of(s.certificates[f], tenant, installation) ==>
             s.certificates[f].createdAt <= at)
  }

  /** The store after an operation; a refused operation is `None` and changes nothing. */
  function Apply(s: Store, op: Op): Option<Store> {
    match op
    case CreatePairing(p) =>
      if MayCreate(s, p) then Some(s.(pairings := s.pairings[p.verifier := p])) else None
    case Redeem(verifier, _, _, at, certificate) =>
      if MayRedeem(s, op)
      then Some(s.(pairings := s.pairings[verifier := s.pairings[verifier].(state := Consumed, consumedAt := at)],
                   certificates := s.certificates[certificate.fingerprint := certificate]))
      else None
    case Rotate(_, _, current, replacement, at, overlap) =>
      if MayRotate(s, op)
      then Some(s.(certificates :=
                     s.certificates[current := s.certificates[current].(state := RetiringCert,
                       retireAt := at + overlap)]
                     [replacement.fingerprint := replacement]))
      else None
    case RevokeCertificate(tenant, installation, fingerprint, at) =>
      if ValidUuid7(tenant) && ValidUuid7(installation) && at != UNSET && fingerprint in s.certificates
         && Of(s.certificates[fingerprint], tenant, installation) && s.certificates[fingerprint].createdAt <= at
      then Some(s.(certificates := s.certificates[fingerprint := Revoked(s.certificates[fingerprint], at)]))
      else None
    case RevokeInstallation(tenant, installation, at) =>
      if !MayRevokeInstallation(s, tenant, installation, at) then None
      else if (tenant, installation) in s.revoked then Some(s)
      else Some(s.(revoked := s.revoked[(tenant, installation) := at],
                   certificates := RevokeAll(s.certificates, tenant, installation, at)))
  }

  function After(s: Store, op: Op): Store {
    if Apply(s, op).Some? then Apply(s, op).value else s
  }

  const EMPTY := Store(map[], map[], map[])

  function Run(s: Store, ops: seq<Op>): Store
    decreases |ops|
  {
    if ops == [] then s else After(Run(s, ops[..|ops| - 1]), ops[|ops| - 1])
  }

  // ---------------------------------------------------------------- structure

  /** Records are stored under their own digests, serial strings are distinct, and a revoked installation has
      only revoked certificates. */
  ghost predicate Structured(s: Store) {
    && (forall v :: v in s.pairings ==> s.pairings[v].verifier == v)
    && (forall f :: f in s.certificates ==> s.certificates[f].fingerprint == f)
    && (forall f, g :: f in s.certificates && g in s.certificates && f != g ==>
         s.certificates[f].serial != s.certificates[g].serial)
    && (forall f :: f in s.certificates && (s.certificates[f].tenant, s.certificates[f].installation) in s.revoked ==>
          s.certificates[f].state == RevokedCert)
  }

  lemma RedeemKeepsStructure(s: Store, op: Op)
    requires Structured(s) && op.Redeem? && MayRedeem(s, op)
    ensures Structured(After(s, op))
  {
  }

  lemma RotateKeepsStructure(s: Store, op: Op)
    requires Structured(s) && op.Rotate? && MayRotate(s, op)
    ensures Structured(After(s, op))
  {
  }

  /** Revocations and pairings leave each certificate alone or revoke it, under the same key. */
  lemma OthersOnlyRevoke(s: Store, op: Op)
    requires op.RevokeCertificate? || op.RevokeInstallation? || op.CreatePairing?
    ensures After(s, op).certificates.Keys == s.certificates.Keys
    ensures forall f :: f in s.certificates ==>
              || After(s, op).certificates[f] == s.certificates[f]
              || (!op.CreatePairing? && After(s, op).certificates[f]
                   == s.certificates[f].(state := RevokedCert, revokedAt := op.at))
    ensures op.CreatePairing? ==> After(s, op).certificates == s.certificates && After(s, op).revoked == s.revoked
    ensures op.RevokeCertificate? ==> After(s, op).revoked == s.revoked
  {
  }

  lemma RevokeKeepsStructure(s: Store, op: Op)
    requires Structured(s) && (op.RevokeCertificate? || op.RevokeInstallation? || op.CreatePairing?)
    ensures Structured(After(s, op))
  {
    var n := After(s, op);
    OthersOnlyRevoke(s, op);
    forall f | f in n.certificates && (n.certificates[f].tenant, n.certificates[f].installation) in n.revoked
      ensures n.certificates[f].state == RevokedCert
    {
    }
  }

  lemma StepKeepsStructure(s: Store, op: Op)
    requires Structured(s)
    ensures Structured(After(s, op))
  {
    match op {
      case Redeem(_, _, _, _, _) => if MayRedeem(s, op) { RedeemKeepsStructure(s, op); }
      case Rotate(_, _, _, _, _, _) => if MayRotate(s, op) { RotateKeepsStructure(s, op); }
      case _ => RevokeKeepsStructure(s, op);
    }
  }

  lemma {:induction false} RunsAreStructured(ops: seq<Op>)
    ensures Structured(Run(EMPTY, ops))
    decreases |ops|
  {
    if ops != [] {
      RunsAreStructured(ops[..|ops| - 1]);
      StepKeepsStructure(Run(EMPTY, ops[..|ops| - 1]), ops[|ops| - 1]);
    }
  }

  // ---------------------------------------------------------------- uniqueness in time

  /** Every certificate has already started, no installation has two unexpired certificates in state active, and
      a retiring one retires within the overlap bound and before its expiry. */
  ghost predicate UniqueFrom(s: Store, clock: Instant) {
    && (forall f :: f in s.certificates ==> s.certificates[f].notBefore <= clock)
    && (forall f, g :: f in s.certificates && g in s.certificates && f != g
                       && s.certificates[f].tenant == s.certificates[g].tenant
                       && s.certificates[f].installation == s.certificates[g].installation ==>
          !(Standing(s.certificates[f], clock) && Standing(s.certificates[g], clock)))
    && (forall f :: f in s.certificates && s.certificates[f].state == RetiringCert ==>
          s.certificates[f].retireAt <= clock + MAX_OVERLAP && s.certificates[f].retireAt < s.certificates[f].notAfter)
  }

  /** In state active and not expired. */
  predicate Standing(c: Certificate, clock: Instant) {
    c.state == ActiveCert && c.revokedAt == UNSET && clock < c.notAfter
  }

  lemma ClockAdvances(s: Store, clock: Instant, later: Instant)
    requires UniqueFrom(s, clock) && clock <= later
    ensures UniqueFrom(s, later)
  {
    forall f | f in s.certificates ensures Standing(s.certificates[f], later) ==> Standing(s.certificates[f], clock) {}
  }

  /** A certificate standing at `at` would be active then, since it has already started. */
  lemma NoneStanding(s: Store, tenant: string, installation: string, at: Instant, f: Fingerprint)
    requires UniqueFrom(s, at) && !AnyActive(s, tenant, installation, at)
    requires f in s.certificates && Of(s.certificates[f], tenant, installation)
    ensures !Standing(s.certificates[f], at)
  {
  }

  lemma RedeemKeepsUnique(s: Store, op: Op)
    requires op.Redeem? && MayRedeem(s, op) && UniqueFrom(s, op.at)
    ensures UniqueFrom(After(s, op), op.at)
  {
    forall f | f in s.certificates && Of(s.certificates[f], op.tenant, op.installation)
      ensures !Standing(s.certificates[f], op.at) {
      NoneStanding(s, op.tenant, op.installation, op.at, f);
    }
  }

  lemma RotateKeepsUnique(s: Store, op: Op)
    requires op.Rotate? && MayRotate(s, op) && UniqueFrom(s, op.at)
    ensures UniqueFrom(After(s, op), op.at)
  {
    assert Standing(s.certificates[op.current], op.at);
    forall f | f in s.certificates && f != op.current && Of(s.certificates[f], op.tenant, op.installation)
      ensures !Standing(s.certificates[f], op.at)
    {
    }
  }

  lemma RevokeKeepsUnique(s: Store, op: Op, clock: Instant)
    requires op.RevokeCertificate? || op.RevokeInstallation? || op.CreatePairing?
    requires UniqueFrom(s, clock)
    ensures UniqueFrom(After(s, op), clock)
  {
    OthersOnlyRevoke(s, op);
  }

  /** The instant of an operation, if it has one. */
  predicate NotBefore(clock: Instant, op: Op) {
    op.CreatePairing? || clock <= op.at
  }

  function Clock(clock: Instant, op: Op): Instant {
    if op.CreatePairing? then clock else op.at
  }

  /** Operation times never decrease. */
  predicate Monotone(clock: Instant, ops: seq<Op>)
    decreases |ops|
  {
    ops == [] || (Monotone(clock, ops[..|ops| - 1]) && NotBefore(Latest(clock, ops[..|ops| - 1]), ops[|ops| - 1]))
  }

  function Latest(clock: Instant, ops: seq<Op>): Instant
    decreases |ops|
  {
    if ops == [] then clock else Clock(Latest(clock, ops[..|ops| - 1]), ops[|ops| - 1])
  }

  lemma StepKeepsUnique(s: Store, op: Op, clock: Instant)
    requires UniqueFrom(s, clock) && NotBefore(clock, op)
    ensures UniqueFrom(After(s, op), Clock(clock, op))
  {
    ClockAdvances(s, clock, Clock(clock, op));
    match op {
      case Redeem(_, _, _, _, _) => if MayRedeem(s, op) { RedeemKeepsUnique(s, op); }
      case Rotate(_, _, _, _, _, _) => if MayRotate(s, op) { RotateKeepsUnique(s, op); }
      case _ => RevokeKeepsUnique(s, op, Clock(clock, op));
    }
  }

  lemma {:induction false} RunsAreUnique(clock: Instant, ops: seq<Op>)
    requires Monotone(clock, ops)
    ensures UniqueFrom(Run(EMPTY, ops), Latest(clock, ops))
    decreases |ops|
  {
    if ops != [] {
      RunsAreUnique(clock, ops[..|ops| - 1]);
      StepKeepsUnique(Run(EMPTY, ops[..|ops| - 1]), ops[|ops| - 1], Latest(clock, ops[..|ops| - 1]));
    }
  }

  /** If operation times never decrease, then from the latest operation on each installation has at most one
      usable certificate in state active; any other usable one is retiring, stops within 24 hours of the
      latest operation, and stops before its own expiry. */
  lemma OneActiveCertificate(clock: Instant, ops: seq<Op>, now: Instant, f: Fingerprint, g: Fingerprint)
    requires Monotone(clock, ops) && Latest(clock, ops) <= now
    requires var s := Run(EMPTY, ops); f in s.certificates && g in s.certificates && f != g
    requires var s := Run(EMPTY, ops);
             && s.certificates[f].tenant == s.certificates[g].tenant
             && s.certificates[f].installation == s.certificates[g].installation
             && ActiveAt(s.certificates[f], now) && ActiveAt(s.certificates[g], now)
    ensures var s := Run(EMPTY, ops);
            && (s.certificates[f].state == RetiringCert || s.certificates[g].state == RetiringCert)
            && (s.certificates[f].state == RetiringCert ==>
                  now < s.certificates[f].retireAt <= Latest(clock, ops) + MAX_OVERLAP
                    && s.certificates[f].retireAt < s.certificates[f].notAfter)
  {
    RunsAreUnique(clock, ops);
    ClockAdvances(Run(EMPTY, ops), Latest(clock, ops), now);
  }

  /** A rotation sets the retirement instant at most 24 hours ahead; no later operation moves it. */
  lemma RetirementIsSetOnce(s: Store, op: Op, f: Fingerprint)
    requires Structured(s) && f in s.certificates
    ensures f in After(s, op).certificates
    ensures var before, after := s.certificates[f], After(s, op).certificates[f];
            && (before.state != ActiveCert ==> after.retireAt == before.retireAt && after.state != ActiveCert)
            && (before.state == ActiveCert && after.state == RetiringCert ==>
                  op.Rotate? && op.current == f && after.retireAt == op.at + op.overlap
                    && op.at < after.retireAt <= op.at + MAX_OVERLAP)
            && (before.state == RevokedCert ==> after == before)
  {
  }

  // ---------------------------------------------------------------- a clock that goes back

  /** Without the clock assumption uniqueness fails: redeemed first at 100 and then at 50, two certificates of
      one installation are active together at 101. */
  lemma BackwardsClockBreaksUniqueness(a: Certificate, b: Certificate, p: Pairing, q: Pairing)
    requires ValidCertificate(a) && ValidCertificate(b) && ValidPairing(p) && ValidPairing(q)
    requires a.fingerprint != b.fingerprint && a.serial != b.serial && p.verifier != q.verifier
    requires a.tenant == b.tenant == p.tenant == q.tenant
             && a.installation == b.installation == p.installation == q.installation
    requires a.notBefore == 100 && b.notBefore == 50 && a.notAfter == b.notAfter == 1000
    requires p.createdAt == q.createdAt == 10 && p.expiresAt == q.expiresAt == 500
    ensures var ops := [CreatePairing(p), CreatePairing(q), Redeem(p.verifier, a.tenant, a.installation, 100, a),
                        Redeem(q.verifier, a.tenant, a.installation, 50, b)];
            var s := Run(EMPTY, ops);
            && a.fingerprint in s.certificates && b.fingerprint in s.certificates
            && s.certificates[a.fingerprint] == a && s.certificates[b.fingerprint] == b
            && ActiveAt(a, 101) && ActiveAt(b, 101) && a.state == b.state == ActiveCert
  {
    var o1, o2 := CreatePairing(p), CreatePairing(q);
    var o3, o4 := Redeem(p.verifier, a.tenant, a.installation, 100, a),
        Redeem(q.verifier, a.tenant, a.installation, 50, b);
    FirstRedeemed(a, p, q);
    assert MayRedeem(After(After(After(EMPTY, o1), o2), o3), o4);
    FourSteps(o1, o2, o3, o4);
  }

  const SAMPLE_ID := "00000000-0000-7000-8000-000000000000"

  function SampleSerial(last: char): string {
    seq(40, i => if i == 0 then '4' else if i == 39 then last else '0')
  }

  function SampleCertificate(fingerprint: Fingerprint, last: char, start: Instant, end: Instant): Certificate {
    Certificate(SAMPLE_ID, SAMPLE_ID, fingerprint, SampleSerial(last), InstallationUri(SAMPLE_ID), start, end,
      ActiveCert, start, UNSET, UNSET)
  }

  lemma SampleIsValid(fingerprint: Fingerprint, last: char, start: Instant, end: Instant)
    requires fingerprint != 0 && '0' <= last <= '9' && 0 < start < end <= 1000
    ensures ValidCertificate(SampleCertificate(fingerprint, last, start, end))
  {
    var serial := SampleSerial(last);
    assert HexString(serial);
    assert HexBytes(serial)[0] == 64;
  }

  /** Such a run exists. */
  lemma UniquenessNeedsTheClock()
    ensures exists ops: seq<Op>, a, b ::
              var s := Run(EMPTY, ops);
              && a in s.certificates && b in s.certificates && a != b
              && s.certificates[a].tenant == s.certificates[b].tenant
              && s.certificates[a].installation == s.certificates[b].installation
              && s.certificates[a].state == s.certificates[b].state == ActiveCert
              && ActiveAt(s.certificates[a], 101) && ActiveAt(s.certificates[b], 101)
  {
    var a, b := SampleCertificate(1, '1', 100, 1000), SampleCertificate(2, '2', 50, 1000);
    var p, q := Pairing(1, SAMPLE_ID, SAMPLE_ID, 10, 500, Pending, UNSET),
        Pairing(2, SAMPLE_ID, SAMPLE_ID, 10, 500, Pending, UNSET);
    SampleIsValid(1, '1', 100, 1000);
    SampleIsValid(2, '2', 50, 1000);
    assert a.serial[39] != b.serial[39];
    BackwardsClockBreaksUniqueness(a, b, p, q);
  }

  /** Rotations break it too: A (100 to 200) is redeemed at 100 and B (300 to 1000) at 300; rotating A to C (190 to
      1000) at 190 leaves B and C active together at 301. */
  lemma BackwardsRotationBreaksUniqueness(a: Certificate, b: Certificate, c: Certificate, p: Pairing, q: Pairing)
    requires ValidCertificate(a) && ValidCertificate(b) && ValidCertificate(c) && ValidPairing(p) && ValidPairing(q)
    requires a.fingerprint != b.fingerprint && a.fingerprint != c.fingerprint && b.fingerprint != c.fingerprint
    requires a.serial != b.serial && a.serial != c.serial && b.serial != c.serial && p.verifier != q.verifier
    requires a.tenant == b.tenant == c.tenant == p.tenant == q.tenant
    requires a.installation == b.installation == c.installation == p.installation == q.installation
    requires a.notBefore == 100 && a.notAfter == 200 && b.notBefore == 300 && c.notBefore == 190
             && b.notAfter == c.notAfter == 1000
    requires p.createdAt == q.createdAt == 10 && p.expiresAt == q.expiresAt == 500
    ensures var ops := [CreatePairing(p), CreatePairing(q), Redeem(p.verifier, a.tenant, a.installation, 100, a),
                        Redeem(q.verifier, a.tenant, a.installation, 300, b),
                        Rotate(a.tenant, a.installation, a.fingerprint, c, 190, 5)];
            var s := Run(EMPTY, ops);
            && b.fingerprint in s.certificates && c.fingerprint in s.certificates
            && s.certificates[b.fingerprint] == b && s.certificates[c.fingerprint] == c
            && ActiveAt(b, 301) && ActiveAt(c, 301) && b.state == c.state == ActiveCert
  {
    var o1, o2 := CreatePairing(p), CreatePairing(q);
    var o3, o4 := Redeem(p.verifier, a.tenant, a.installation, 100, a),
        Redeem(q.verifier, a.tenant, a.installation, 300, b);
    var o5 := Rotate(a.tenant, a.installation, a.fingerprint, c, 190, 5);
    var s3 := After(After(After(EMPTY, o1), o2), o3);
    FirstRedeemed(a, p, q);
    assert MayRedeem(s3, o4);
    assert MayRotate(After(s3, o4), o5);
    FiveSteps(o1, o2, o3, o4, o5);
  }

  lemma FirstRedeemed(a: Certificate, p: Pairing, q: Pairing)
    requires ValidCertificate(a) && ValidPairing(p) && ValidPairing(q) && p.verifier != q.verifier
    requires a.tenant == p.tenant == q.tenant && a.installation == p.installation == q.installation
    requires p.createdAt <= 100 < p.expiresAt && a.notBefore == 100 < a.notAfter
    ensures var s := After(After(After(EMPTY, CreatePairing(p)), CreatePairing(q)),
                           Redeem(p.verifier, a.tenant, a.installation, 100, a));
            && s.certificates == map[a.fingerprint := a] && s.revoked == map[]
            && q.verifier in s.pairings && s.pairings[q.verifier] == q
  {
    var s2 := After(After(EMPTY, CreatePairing(p)), CreatePairing(q));
    assert s2 == Store(map[p.verifier := p, q.verifier := q], map[], map[]);
    assert MayRedeem(s2, Redeem(p.verifier, a.tenant, a.installation, 100, a));
  }

  lemma FourSteps(o1: Op, o2: Op, o3: Op, o4: Op)
    ensures Run(EMPTY, [o1, o2, o3, o4]) == After(After(After(After(EMPTY, o1), o2), o3), o4)
  {
    OneMore([], o1);
    assert [] + [o1] == [o1];
    OneMore([o1], o2);
    assert [o1] + [o2] == [o1, o2];
    OneMore([o1, o2], o3);
    assert [o1, o2] + [o3] == [o1, o2, o3];
    OneMore([o1, o2, o3], o4);
    assert [o1, o2, o3] + [o4] == [o1, o2, o3, o4];
  }

  lemma FiveSteps(o1: Op, o2: Op, o3: Op, o4: Op, o5: Op)
    ensures Run(EMPTY, [o1, o2, o3, o4, o5]) == After(After(After(After(After(EMPTY, o1), o2), o3), o4), o5)
  {
    FourSteps(o1, o2, o3, o4);
    OneMore([o1, o2, o3, o4], o5);
    assert [o1, o2, o3, o4] + [o5] == [o1, o2, o3, o4, o5];
  }

  lemma OneMore(ops: seq<Op>, op: Op)
    ensures Run(EMPTY, ops + [op]) == After(Run(EMPTY, ops), op)
  {
    assert (ops + [op])[..|ops|] == ops;
  }

  /** Such a run exists. */
  lemma RotationNeedsTheClock()
    ensures exists ops: seq<Op>, b, c ::
              var s := Run(EMPTY, ops);
              && ops != [] && ops[|ops| - 1].Rotate? && b in s.certificates && c in s.certificates && b != c
              && s.certificates[b].tenant == s.certificates[c].tenant
              && s.certificates[b].installation == s.certificates[c].installation
              && s.certificates[b].state == s.certificates[c].state == ActiveCert
              && ActiveAt(s.certificates[b], 301) && ActiveAt(s.certificates[c], 301)
  {
    var a, b, c := SampleCertificate(1, '1', 100, 200), SampleCertificate(2, '2', 300, 1000),
        SampleCertificate(3, '3', 190, 1000);
    var p, q := Pairing(1, SAMPLE_ID, SAMPLE_ID, 10, 500, Pending, UNSET),
        Pairing(2, SAMPLE_ID, SAMPLE_ID, 10, 500, Pending, UNSET);
    SampleIsValid(1, '1', 100, 200);
    SampleIsValid(2, '2', 300, 1000);
    SampleIsValid(3, '3', 190, 1000);
    assert a.serial[39] == '1' && b.serial[39] == '2' && c.serial[39] == '3';
    BackwardsRotationBreaksUniqueness(a, b, c, p, q);
    var ops := [CreatePairing(p), CreatePairing(q), Redeem(p.verifier, a.tenant, a.installation, 100, a),
                Redeem(q.verifier, a.tenant, a.installation, 300, b),
                  Rotate(a.tenant, a.installation, a.fingerprint, c, 190, 5)];
    assert ops[|ops| - 1].Rotate?;
  }

  function Later(a: Instant, b: Instant): Instant {
    if a <= b then b else a
  }

  /** No certificate of the installation but the excepted ones stands at `now`. */
  ghost predicate NoneStands(s: Store, tenant: string, installation: string, now: Instant, except: set<Fingerprint>) {
    forall f :: f in s.certificates && f !in except && Of(s.certificates[f], tenant, installation) ==>
      !Standing(s.certificates[f], now)
  }

  /** Adding a started active certificate keeps uniqueness exactly when it has expired or nothing else stands. */
  lemma AddUniqueExactly(s: Store, n: Store, c: Certificate, now: Instant)
    requires UniqueFrom(s, now) && c.fingerprint !in s.certificates
             && n.certificates == s.certificates[c.fingerprint := c]
    requires c.state == ActiveCert && c.revokedAt == UNSET && c.notBefore <= now
    ensures UniqueFrom(n, now) <==> c.notAfter <= now || NoneStands(s, c.tenant, c.installation, now, {})
  {
    assert Standing(n.certificates[c.fingerprint], now) <==> now < c.notAfter;
    if UniqueFrom(n, now) && now < c.notAfter {
      forall f | f in s.certificates && Of(s.certificates[f], c.tenant, c.installation)
        ensures !Standing(s.certificates[f], now) {
        assert n.certificates[f] == s.certificates[f];
      }
    }
  }

  /** Whatever the clock does, a redemption keeps uniqueness exactly when its certificate has expired by the later of
      the two clocks or no certificate of the installation still stands then. */
  lemma RedeemUniqueExactly(s: Store, op: Op, clock: Instant)
    requires op.Redeem? && MayRedeem(s, op) && UniqueFrom(s, clock)
    ensures var now := Later(clock, op.at);
            UniqueFrom(After(s, op), now) <==>
              op.certificate.notAfter <= now || NoneStands(s, op.tenant, op.installation, now, {})
  {
    ClockAdvances(s, clock, Later(clock, op.at));
    AddUniqueExactly(s, After(s, op), op.certificate, Later(clock, op.at));
  }

  function Retiring(s: Store, f: Fingerprint, at: Instant): Store
    requires f in s.certificates
  {
    s.(certificates := s.certificates[f := s.certificates[f].(state := RetiringCert, retireAt := at)])
  }

  lemma RetiringClears(s: Store, f: Fingerprint, at: Instant, now: Instant)
    requires UniqueFrom(s, now) && f in s.certificates && at <= now + MAX_OVERLAP && at < s.certificates[f].notAfter
    ensures UniqueFrom(Retiring(s, f, at), now)
    ensures NoneStands(Retiring(s, f, at), s.certificates[f].tenant, s.certificates[f].installation, now, {})
            <==> NoneStands(s, s.certificates[f].tenant, s.certificates[f].installation, now, {f})
  {
  }

  /** A rotation keeps it exactly when its replacement has expired by then or no certificate of the installation but the
      one it retires still stands. */
  lemma RotateUniqueExactly(s: Store, op: Op, clock: Instant)
    requires op.Rotate? && MayRotate(s, op) && UniqueFrom(s, clock)
    ensures var now := Later(clock, op.at);
            UniqueFrom(After(s, op), now) <==>
              op.replacement.notAfter <= now || NoneStands(s, op.tenant, op.installation, now, {op.current})
  {
    RotateShape(s, op);
    ReplacedUniqueExactly(s, After(s, op), op.current, op.replacement, op.at + op.overlap, clock, Later(clock, op.at));
  }

  lemma RotateShape(s: Store, op: Op)
    requires op.Rotate? && MayRotate(s, op)
    ensures op.current in s.certificates && Of(s.certificates[op.current], op.tenant, op.installation)
    ensures op.at + op.overlap < s.certificates[op.current].notAfter && op.overlap <= MAX_OVERLAP
    ensures After(s, op).certificates
            == Retiring(s, op.current, op.at + op.overlap).certificates[op.replacement.fingerprint := op.replacement]
    ensures var c := op.replacement;
            && c.fingerprint !in s.certificates && c.state == ActiveCert && c.revokedAt == UNSET && c.notBefore <= op.at
            && Of(c, op.tenant, op.installation)
  {
  }

  lemma ReplacedUniqueExactly(s: Store, n: Store, current: Fingerprint, c: Certificate, retireAt: Instant,
      clock: Instant, now: Instant)
    requires UniqueFrom(s, clock) && clock <= now && current in s.certificates
             && Of(c, s.certificates[current].tenant, s.certificates[current].installation)
    requires retireAt <= now + MAX_OVERLAP && retireAt < s.certificates[current].notAfter
             && c.fingerprint !in s.certificates
    requires c.state == ActiveCert && c.revokedAt == UNSET && c.notBefore <= now
    requires n.certificates == Retiring(s, current, retireAt).certificates[c.fingerprint := c]
    ensures UniqueFrom(n, now) <==> c.notAfter <= now || NoneStands(s, c.tenant, c.installation, now, {current})
  {
    ClockAdvances(s, clock, now);
    RetiringClears(s, current, retireAt, now);
    AddUniqueExactly(Retiring(s, current, retireAt), n, c, now);
  }

  /** What a step needs at the later of the two clocks; only redemptions and rotations that go through need anything. */
  ghost predicate Clear(s: Store, op: Op, now: Instant) {
    match op
    case Redeem(_, tenant, installation, _, certificate) =>
      !MayRedeem(s, op) || certificate.notAfter <= now || NoneStands(s, tenant, installation, now, {})
    case Rotate(tenant, installation, current, replacement, _, _) =>
      !MayRotate(s, op) || replacement.notAfter <= now || NoneStands(s, tenant, installation, now, {current})
    case _ => true
  }

  function Highest(clock: Instant, op: Op): Instant {
    if op.CreatePairing? then clock else Later(clock, op.at)
  }

  /** One operation of any kind, whatever its time, keeps uniqueness exactly when it is clear. */
  lemma StepUniqueExactly(s: Store, op: Op, clock: Instant)
    requires UniqueFrom(s, clock)
    ensures UniqueFrom(After(s, op), Highest(clock, op)) <==> Clear(s, op, Highest(clock, op))
  {
    var now := Highest(clock, op);
    ClockAdvances(s, clock, now);
    match op {
      case Redeem(_, _, _, _, _) => if MayRedeem(s, op) { RedeemUniqueExactly(s, op, clock); }
      case Rotate(_, _, _, _, _, _) => if MayRotate(s, op) { RotateUniqueExactly(s, op, clock); }
      case _ => RevokeKeepsUnique(s, op, now);
    }
  }

  /** The latest time seen so far, in whatever order the times come. */
  function HighWater(clock: Instant, ops: seq<Op>): Instant
    decreases |ops|
  {
    if ops == [] then clock else Highest(HighWater(clock, ops[..|ops| - 1]), ops[|ops| - 1])
  }

  ghost predicate UniqueThroughout(clock: Instant, ops: seq<Op>)
    decreases |ops|
  {
    UniqueFrom(Run(EMPTY, ops), HighWater(clock, ops)) && (ops != [] ==> UniqueThroughout(clock, ops[..|ops| - 1]))
  }

  ghost predicate ClearThroughout(clock: Instant, ops: seq<Op>)
    decreases |ops|
  {
    ops != [] ==>
      && ClearThroughout(clock, ops[..|ops| - 1])
      && Clear(Run(EMPTY, ops[..|ops| - 1]), ops[|ops| - 1], HighWater(clock, ops))
  }

  /** Over every run, whatever its times: installations have at most one standing certificate after every operation if
      and only if every operation was clear when it came. */
  lemma {:induction false} RunsUniqueExactly(clock: Instant, ops: seq<Op>)
    ensures UniqueThroughout(clock, ops) <==> ClearThroughout(clock, ops)
    decreases |ops|
  {
    if ops != [] {
      var init := ops[..|ops| - 1];
      RunsUniqueExactly(clock, init);
      if UniqueFrom(Run(EMPTY, init), HighWater(clock, init)) {
        StepUniqueExactly(Run(EMPTY, init), ops[|ops| - 1], HighWater(clock, init));
      }
    }
  }

  /** With times that never decrease every operation is clear. */
  lemma MonotoneIsClear(s: Store, op: Op, clock: Instant)
    requires UniqueFrom(s, clock) && NotBefore(clock, op)
    ensures Clear(s, op, Highest(clock, op))
  {
    StepKeepsUnique(s, op, clock);
    StepUniqueExactly(s, op, clock);
  }

  // ---------------------------------------------------------------- revocation is final

  lemma StepKeepsRevoked(s: Store, op: Op, tenant: string, installation: string)
    requires Structured(s) && (tenant, installation) in s.revoked
    ensures (tenant, installation) in After(s, op).revoked
    ensures op.CreatePairing? && op.record.tenant == tenant && op.record.installation == installation ==>
            Apply(s, op).None?
    ensures (op.Redeem? || op.Rotate?) && op.tenant == tenant && op.installation == installation ==> Apply(s, op).None?
    ensures forall f :: f in After(s, op).certificates && Of(After(s, op).certificates[f], tenant, installation) ==>
              f in s.certificates && After(s, op).certificates[f] == s.certificates[f]
  {
  }

  /** What a revoked installation looks like from then on: every certificate it ever had is unusable at every
      instant, and it can neither pair, redeem nor rotate. */
  ghost predicate Gone(s: Store, tenant: string, installation: string) {
    && (tenant, installation) in s.revoked
    && (forall f, now :: f in s.certificates && Of(s.certificates[f], tenant, installation) ==>
         !ActiveAt(s.certificates[f], now))
    && (forall op: Op ::
          (|| (op.CreatePairing? && op.record.tenant == tenant && op.record.installation == installation)
           || ((op.Redeem? || op.Rotate?) && op.tenant == tenant && op.installation == installation)) ==>
                Apply(s, op).None?)
  }

  lemma RevokedMeansGone(s: Store, tenant: string, installation: string)
    requires Structured(s) && (tenant, installation) in s.revoked
    ensures Gone(s, tenant, installation)
  {
    forall f, now | f in s.certificates && Of(s.certificates[f], tenant, installation)
      ensures !ActiveAt(s.certificates[f], now) {}
    forall op: Op |
      (op.CreatePairing? && op.record.tenant == tenant && op.record.installation == installation)
      || ((op.Redeem? || op.Rotate?) && op.tenant == tenant && op.installation == installation)
      ensures Apply(s, op).None?
    {
      StepKeepsRevoked(s, op, tenant, installation);
    }
  }

  /** Once an installation is revoked it stays gone in every continuation. */
  lemma {:induction false} RevocationIsFinal(earlier: seq<Op>, later: seq<Op>, tenant: string, installation: string)
    requires (tenant, installation) in Run(EMPTY, earlier).revoked
    ensures Gone(Run(Run(EMPTY, earlier), later), tenant, installation)
    decreases |later|
  {
    RevokedContinues(earlier, later, tenant, installation);
    RevokedMeansGone(Run(Run(EMPTY, earlier), later), tenant, installation);
  }

  lemma {:induction false} RevokedContinues(earlier: seq<Op>, later: seq<Op>, tenant: string, installation: string)
    requires (tenant, installation) in Run(EMPTY, earlier).revoked
    ensures Structured(Run(Run(EMPTY, earlier), later))
            && (tenant, installation) in Run(Run(EMPTY, earlier), later).revoked
    decreases |later|
  {
    RunsAreStructured(earlier);
    if later != [] {
      RevokedContinues(earlier, later[..|later| - 1], tenant, installation);
      StepKeepsRevoked(Run(Run(EMPTY, earlier), later[..|later| - 1]), later[|later| - 1], tenant, installation);
      StepKeepsStructure(Run(Run(EMPTY, earlier), later[..|later| - 1]), later[|later| - 1]);
    }
  }

  // ---------------------------------------------------------------- conservation

  function ConsumedPairings(s: Store): set<Verifier> {
    set v | v in s.pairings && s.pairings[v].state == Consumed
  }

  function Rotations(s: Store, ops: seq<Op>): nat
    decreases |ops|
  {
    if ops == [] then 0
    else
      var last := ops[|ops| - 1];
      Rotations(s, ops[..|ops| - 1]) + (if last.Rotate? && Apply(Run(s, ops[..|ops| - 1]), last).Some? then 1 else 0)
  }

  function Redemptions(s: Store, ops: seq<Op>, verifier: Verifier): nat
    decreases |ops|
  {
    if ops == [] then 0
    else
      var last := ops[|ops| - 1];
      Redemptions(s, ops[..|ops| - 1], verifier)
      + (if last.Redeem? && last.verifier == verifier && Apply(Run(s, ops[..|ops| - 1]), last).Some? then 1 else 0)
  }

  lemma AddingOne<K, V>(m: map<K, V>, k: K, v: V)
    ensures |m[k := v]| == if k in m then |m| else |m| + 1
  {
    assert m[k := v].Keys == m.Keys + {k};
    assert |m[k := v].Keys| == |m[k := v]| && |m.Keys| == |m|;
  }

  lemma CertificatesGrow(s: Store, op: Op)
    ensures |After(s, op).certificates| == |s.certificates| + if (op.Redeem? || op.Rotate?) && Apply(s, op).Some? then 1
            else 0
  {
    match op {
      case Redeem(_, _, _, _, certificate) => AddingOne(s.certificates, certificate.fingerprint, certificate);
      case Rotate(_, _, current, replacement, at, overlap) =>
        if MayRotate(s, op) {
          var retired := s.certificates[current].(state := RetiringCert, retireAt := at + overlap);
          AddingOne(s.certificates, current, retired);
          AddingOne(s.certificates[current := retired], replacement.fingerprint, replacement);
        }
      case _ =>
        OthersOnlyRevoke(s, op);
        assert |After(s, op).certificates.Keys| == |After(s, op).certificates|
               && |s.certificates.Keys| == |s.certificates|;
    }
  }

  lemma ConsumedGrow(s: Store, op: Op)
    ensures ConsumedPairings(After(s, op)) == ConsumedPairings(s) + if op.Redeem? && Apply(s, op).Some?
            then {op.verifier} else {}
    ensures op.Redeem? && Apply(s, op).Some? ==> op.verifier !in ConsumedPairings(s)
  {
    match op {
      case CreatePairing(p) => if MayCreate(s, p) { assert p.state == Pending; }
      case Redeem(_, _, _, _, _) => if MayRedeem(s, op) { assert s.pairings[op.verifier].state == Pending; }
      case _ => assert After(s, op).pairings == s.pairings;
    }
  }

  /** In every run the certificates number the consumed pairings plus the successful rotations. */
  lemma {:induction false} CertificatesAreConserved(ops: seq<Op>)
    ensures |Run(EMPTY, ops).certificates| == |ConsumedPairings(Run(EMPTY, ops))| + Rotations(EMPTY, ops)
    decreases |ops|
  {
    if ops != [] {
      CertificatesAreConserved(ops[..|ops| - 1]);
      CertificatesGrow(Run(EMPTY, ops[..|ops| - 1]), ops[|ops| - 1]);
      ConsumedGrow(Run(EMPTY, ops[..|ops| - 1]), ops[|ops| - 1]);
    }
  }

  /** In every run a pairing is redeemed at most once, and exactly when it ends up consumed. */
  lemma {:induction false} PairingIsConsumedOnce(ops: seq<Op>, verifier: Verifier)
    ensures Redemptions(EMPTY, ops, verifier) == if verifier in ConsumedPairings(Run(EMPTY, ops)) then 1 else 0
    decreases |ops|
  {
    if ops != [] {
      PairingIsConsumedOnce(ops[..|ops| - 1], verifier);
      ConsumedGrow(Run(EMPTY, ops[..|ops| - 1]), ops[|ops| - 1]);
    }
  }

  // ---------------------------------------------------------------- serial numbers

  function LowerChar(c: char): char {
    if 'A' <= c <= 'F' then (c as int - 'A' as int + 'a' as int) as char else c
  }

  lemma SameDigit(c: char, d: char)
    requires HexDigit(c).Some? && HexDigit(d).Some?
    ensures HexDigit(c) == HexDigit(d) <==> LowerChar(c) == LowerChar(d)
  {
  }

  lemma DigitPair(a: nat, b: nat, c: nat, d: nat)
    requires a < 16 && b < 16 && c < 16 && d < 16
    ensures 16 * a + b == 16 * c + d <==> a == c && b == d
  {
  }

  /** Two serial strings name the same number exactly when they differ at most in letter case. The store
      compares the strings, so distinct strings are distinct numbers only for serials written in one case. */
  lemma SerialNumbersIgnoreCase(s: string, t: string)
    requires HexString(s) && HexString(t)
    ensures HexBytes(s) == HexBytes(t) <==>
            |s| == |t| && forall i :: 0 <= i < |s| ==> LowerChar(s[i]) == LowerChar(t[i])
  {
    if |s| == |t| {
      forall k | 0 <= k < |s| / 2
        ensures HexBytes(s)[k] == HexBytes(t)[k] <==>
                LowerChar(s[2 * k]) == LowerChar(t[2 * k]) && LowerChar(s[2 * k + 1]) == LowerChar(t[2 * k + 1])
      {
        SameDigit(s[2 * k], t[2 * k]);
        SameDigit(s[2 * k + 1], t[2 * k + 1]);
        DigitPair(HexDigit(s[2 * k]).value, HexDigit(s[2 * k + 1]).value, HexDigit(t[2 * k]).value,
          HexDigit(t[2 * k + 1]).value);
      }
      if HexBytes(s) == HexBytes(t) {
        forall i | 0 <= i < |s| ensures LowerChar(s[i]) == LowerChar(t[i]) {
          var k := i / 2;
          assert HexBytes(s)[k] == HexBytes(t)[k];
          assert i == 2 * k || i == 2 * k + 1;
        }
      } else {
        assert exists k :: 0 <= k < |s| / 2 && HexBytes(s)[k] != HexBytes(t)[k];
      }
    } else {
      assert |HexBytes(s)| != |HexBytes(t)|;
    }
  }

  lemma SerialsMayCollide()
    ensures exists s, t :: ValidSerial(s) && ValidSerial(t) && s != t && HexBytes(s) == HexBytes(t)
  {
    var s := seq(40, i => if i == 0 then '4' else if i == 1 then 'a' else '0');
    var t := seq(40, i => if i == 0 then '4' else if i == 1 then 'A' else '0');
    assert s[1] != t[1];
    assert HexString(s) && HexString(t);
    SerialNumbersIgnoreCase(s, t);
    assert HexBytes(s)[0] == 16 * 4 + 10;
    assert ValidSerial(s) && ValidSerial(t);
  }

  // ---------------------------------------------------------------- serials the issuer makes

  type Octet = b: int | 0 <= b < 256

  /** Clears the top bit and sets the next one. */
  function Masked(b: Octet): Octet {
    b % 64 + 64
  }

  function HexChar(d: nat): char
    requires d < 16
  {
    if d < 10 then (d + '0' as int) as char else (d - 10 + 'a' as int) as char
  }

  /** Lower-case hexadecimal, two digits a byte. */
  function HexEncode(bytes: seq<Octet>): (s: string)
    ensures |s| == 2 * |bytes|
  {
    seq(2 * |bytes|, i requires 0 <= i < 2 * |bytes| =>
      HexChar(if i % 2 == 0 then bytes[i / 2] / 16 else bytes[i / 2] % 16))
  }

  lemma HexCharReads(d: nat)
    requires d < 16
    ensures HexDigit(HexChar(d)) == Some(d)
  {
  }

  /** Decoding undoes encoding. */
  lemma HexReadsBack(bytes: seq<Octet>)
    ensures HexString(HexEncode(bytes)) && HexBytes(HexEncode(bytes)) == bytes
  {
    var s := HexEncode(bytes);
    forall i | 0 <= i < |s|
      ensures HexDigit(s[i]) == Some(if i % 2 == 0 then bytes[i / 2] / 16 else bytes[i / 2] % 16) {
      HexCharReads(if i % 2 == 0 then bytes[i / 2] / 16 else bytes[i / 2] % 16);
    }
    forall k | 0 <= k < |bytes| ensures HexBytes(s)[k] == bytes[k] {
      assert 2 * k / 2 == k && (2 * k + 1) / 2 == k;
      assert HexDigit(s[2 * k]) == Some(bytes[k] / 16) && HexDigit(s[2 * k + 1]) == Some(bytes[k] % 16);
    }
  }

  /** Masks twenty random bytes in place, as the issuer does before reading them as a serial number. */
  method MaskSerial(buffer: array<Octet>)
    requires buffer.Length == 20
    modifies buffer
    ensures buffer[..] == [Masked(old(buffer[0]))] + old(buffer[1..])
    ensures ValidSerial(HexEncode(buffer[..]))
  {
    buffer[0] := Masked(buffer[0]);
    assert buffer[1..] == old(buffer[1..]);
    MaskedIsValid(buffer[..]);
  }

  lemma MaskedIsValid(bytes: seq<Octet>)
    requires |bytes| == 20 && 64 <= bytes[0] < 128
    ensures ValidSerial(HexEncode(bytes))
  {
    HexReadsBack(bytes);
    ReadsAsSerial(HexEncode(bytes), bytes);
  }

  lemma ReadsAsSerial(s: string, bytes: seq<Octet>)
    requires HexString(s) && HexBytes(s) == bytes && |bytes| == 20 && 64 <= bytes[0] < 128
    ensures ValidSerial(s)
  {
    assert HexBytes(s)[0] / 64 == 1;
  }

  /** Issued serials are written in one case, so for them distinct strings are distinct numbers. */
  lemma IssuedSerialsDiffer(a: seq<Octet>, b: seq<Octet>)
    ensures HexEncode(a) != HexEncode(b) <==> HexBytes(HexEncode(a)) != HexBytes(HexEncode(b))
  {
    HexReadsBack(a);
    HexReadsBack(b);
  }
}
