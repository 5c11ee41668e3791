/** The in-memory enrolment store: three maps updated in place, scanned by loops in map order. */
module EnrollmentStore {
  import opened Domain
  import opened Enrollment

  /** Character by character, as the identifier check runs. */
  method IsUuid7(s: string) returns (valid: bool)
    ensures valid == ValidUuid7(s)
  {
    if |s| != 36 || s[8] != '-' || s[13] != '-' || s[18] != '-' || s[23] != '-' || s[14] != '7' { return false; }
    for i := 0 to |s|
      invariant forall k :: 0 <= k < i ==> Dash(k) || LowerHex(s[k])
    {
      if !Dash(i) && !LowerHex(s[i]) { return false; }
    }
    valid := s[19] == '8' || s[19] == '9' || s[19] == 'a' || s[19] == 'b';
  }

  class MemoryStore {
    var pairings: map<Verifier, Pairing>
    var certificates: map<Fingerprint, Certificate>
    var revoked: map<(string, string), Instant>

    ghost function State(): Store
      reads this
    {
      Store(pairings, certificates, revoked)
    }

    constructor ()
      ensures State() == EMPTY
    {
      pairings, certificates, revoked := map[], map[], map[];
    }

    /** Scans for a usable certificate of the installation. */
    method HasActive(tenant: string, installation: string, now: Instant) returns (found: bool)
      ensures found == AnyActive(State(), tenant, installation, now)
    {
      var rest := certificates.Keys;
      while rest != {}
        invariant rest <= certificates.Keys
        invariant forall f :: f in certificates && f !in rest ==>
                    !(Of(certificates[f], tenant, installation) && ActiveAt(certificates[f], now))
        decreases rest
      {
        var f :| f in rest;
        if Of(certificates[f], tenant, installation) && ActiveAt(certificates[f], now) { return true; }
        rest := rest - {f};
      }
      return false;
    }

    method HasSerial(serial: string) returns (found: bool)
      ensures found == AnySerial(State(), serial)
    {
      var rest := certificates.Keys;
      while rest != {}
        invariant rest <= certificates.Keys
        invariant forall f :: f in certificates && f !in rest ==> certificates[f].serial != serial
        decreases rest
      {
        var f :| f in rest;
        if certificates[f].serial == serial { return true; }
        rest := rest - {f};
      }
      return false;
    }

    method AddPairing(cancelled: bool, record: Pairing) returns (ok: bool)
      modifies this`pairings
      ensures ok <==> !cancelled && Apply(old(State()), CreatePairing(record)).Some?
      ensures State() == if ok then After(old(State()), CreatePairing(record)) else old(State())
    {
      if cancelled || !ValidPairing(record) { return false; }
      if record.verifier in pairings || (record.tenant, record.installation) in revoked { return false; }
      pairings := pairings[record.verifier := record];
      return true;
    }

    /** A pending pairing inside its window; reads only. */
    method FindPairing(cancelled: bool, verifier: Verifier, at: Instant) returns (found: Option<Pairing>)
      ensures found.Some? <==>
              && !cancelled && at != UNSET && verifier in pairings
              && pairings[verifier].verifier == verifier && pairings[verifier].state == Pending
              && pairings[verifier].createdAt <= at < pairings[verifier].expiresAt
      ensures found.Some? ==> found.value == pairings[verifier]
    {
      if cancelled || at == UNSET || verifier !in pairings { return None; }
      var record := pairings[verifier];
      if record.verifier != verifier || record.state != Pending || at < record.createdAt || !(at < record.expiresAt) {
        return None;
      }
      return Some(record);
    }

    method RedeemPairing(cancelled: bool, op: Op) returns (ok: bool)
      requires op.Redeem?
      modifies this`pairings, this`certificates
      ensures ok <==> !cancelled && Apply(old(State()), op).Some?
      ensures State() == if ok then After(old(State()), op) else old(State())
    {
      if cancelled || !ValidUuid7(op.tenant) || !ValidUuid7(op.installation) || op.at == UNSET
        || !ValidCertificate(op.certificate) {
        return false;
      }
      if op.verifier !in pairings { return false; }
      var record := pairings[op.verifier];
      if record.verifier != op.verifier || record.state != Pending || record.tenant != op.tenant
        || record.installation != op.installation
         || !Of(op.certificate, op.tenant, op.installation) || op.at < record.createdAt || !(op.at < record.expiresAt)
         || !ActiveAt(op.certificate, op.at) {
        return false;
      }
      if (op.tenant, op.installation) in revoked { return false; }
      var active := HasActive(op.tenant, op.installation, op.at);
      if active || op.certificate.fingerprint in certificates { return false; }
      var duplicate := HasSerial(op.certificate.serial);
      if duplicate { return false; }
      pairings := pairings[op.verifier := record.(state := Consumed, consumedAt := op.at)];
      certificates := certificates[op.certificate.fingerprint := op.certificate];
      return true;
    }

    method RotateCertificate(cancelled: bool, op: Op) returns (ok: bool)
      requires op.Rotate?
      modifies this`certificates
      ensures ok <==> !cancelled && Apply(old(State()), op).Some?
      ensures State() == if ok then After(old(State()), op) else old(State())
    {
      if cancelled || !ValidUuid7(op.tenant) || !ValidUuid7(op.installation) || op.at == UNSET
         || op.overlap <= 0 || op.overlap > MAX_OVERLAP || !ValidCertificate(op.replacement) {
        return false;
      }
      if (op.tenant, op.installation) in revoked || op.current !in certificates { return false; }
      var current := certificates[op.current];
      var retireAt := op.at + op.overlap;
      if current.state != ActiveCert || !Of(current, op.tenant, op.installation) || !ActiveAt(current, op.at)
         || op.at < current.notAfter - ROTATION_LEAD || !Of(op.replacement, op.tenant, op.installation)
         || !ActiveAt(op.replacement, op.at) || !(retireAt < current.notAfter)
         || op.replacement.fingerprint == op.current {
        return false;
      }
      if op.replacement.fingerprint in certificates { return false; }
      var duplicate := HasSerial(op.replacement.serial);
      if duplicate { return false; }
      certificates := certificates[op.current := current.(state := RetiringCert, retireAt := retireAt)];
      certificates := certificates[op.replacement.fingerprint := op.replacement];
      return true;
    }

    method RevokeOne(cancelled: bool, op: Op) returns (ok: bool)
      requires op.RevokeCertificate?
      modifies this`certificates
      ensures ok <==> !cancelled && Apply(old(State()), op).Some?
      ensures State() == if ok then After(old(State()), op) else old(State())
    {
      if cancelled || !ValidUuid7(op.tenant) || !ValidUuid7(op.installation) || op.at == UNSET { return false; }
      if op.fingerprint !in certificates { return false; }
      var record := certificates[op.fingerprint];
      if !Of(record, op.tenant, op.installation) || op.at < record.createdAt { return false; }
      if record.state == RevokedCert {
        assert certificates[op.fingerprint := record] == certificates;
        return true;
      }
      certificates := certificates[op.fingerprint := record.(state := RevokedCert, revokedAt := op.at)];
      return true;
    }

    /** Refuses to revoke before a certificate was created. */
    method CreatedAfter(tenant: string, installation: string, at: Instant) returns (found: bool)
      ensures found <==> exists f ::
              f in certificates && Of(certificates[f], tenant, installation) && at < certificates[f].createdAt
    {
      var rest := certificates.Keys;
      while rest != {}
        invariant rest <= certificates.Keys
        invariant forall f :: f in certificates && f !in rest ==>
                  !(Of(certificates[f], tenant, installation) && at < certificates[f].createdAt)
        decreases rest
      {
        var f :| f in rest;
        if Of(certificates[f], tenant, installation) && at < certificates[f].createdAt { return true; }
        rest := rest - {f};
      }
      return false;
    }

    /** Rewrites every certificate of the installation while walking the map. */
    method RevokeEach(tenant: string, installation: string, at: Instant)
      modifies this`certificates
      ensures certificates == RevokeAll(old(certificates), tenant, installation, at)
    {
      ghost var before := certificates;
      var rest := certificates.Keys;
      while rest != {}
        invariant rest <= before.Keys && certificates.Keys == before.Keys
        invariant forall f :: f in before ==>
                    certificates[f] == if f !in rest && Of(before[f], tenant, installation) then Revoked(before[f], at)
                      else before[f]
        decreases rest
      {
        var f :| f in rest;
        var record := certificates[f];
        if Of(record, tenant, installation) && record.state != RevokedCert {
          certificates := certificates[f := record.(state := RevokedCert, revokedAt := at)];
        }
        rest := rest - {f};
      }
    }

    method RevokeWhole(cancelled: bool, op: Op) returns (ok: bool)
      requires op.RevokeInstallation?
      modifies this`certificates, this`revoked
      ensures ok <==> !cancelled && Apply(old(State()), op).Some?
      ensures State() == if ok then After(old(State()), op) else old(State())
    {
      if cancelled || !ValidUuid7(op.tenant) || !ValidUuid7(op.installation) || op.at == UNSET { return false; }
      if (op.tenant, op.installation) in revoked { return true; }
      var late := CreatedAfter(op.tenant, op.installation, op.at);
      if late { return false; }
      revoked := revoked[(op.tenant, op.installation) := op.at];
      RevokeEach(op.tenant, op.installation, op.at);
      return true;
    }

    /** The check made before a connection is accepted; malformed questions fail instead of answering. */
    method CertificateActive(cancelled: bool, tenant: string, installation: string, fingerprint: Fingerprint,
        now: Instant)
      returns (failed: bool, active: bool)
      ensures failed <==> cancelled || !ValidUuid7(tenant) || !ValidUuid7(installation) || now == UNSET
      ensures active <==>
              && !failed && (tenant, installation) !in revoked && fingerprint in certificates
              && Of(certificates[fingerprint], tenant, installation) && ActiveAt(certificates[fingerprint], now)
      ensures active ==> AnyActive(State(), tenant, installation, now)
    {
      if cancelled || !ValidUuid7(tenant) || !ValidUuid7(installation) || now == UNSET { return true, false; }
      if (tenant, installation) in revoked || fingerprint !in certificates { return false, false; }
      var record := certificates[fingerprint];
      return false, Of(record, tenant, installation) && ActiveAt(record, now);
    }
  }
}
