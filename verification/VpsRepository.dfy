/** The statements of internal/repository/vps.go that race on one VPS row, and the
    host-key check of internal/service/oci.go that relies on them. */
module VpsRepository {
  import opened Wrappers

  type Time = int

  /** `profile` stands for the columns these statements only ever copy (name,
      shape, addresses, SSH user, NSG and so on). */
  datatype Vps = Vps(
    profile: string, status: string, credentials: Option<string>,
    tokenHash: Option<string>, tokenExpires: Option<Time>, tokenUsedAt: Option<Time>, receivedAt: Option<Time>,
    fingerprint: Option<string>, updatedAt: Time)

  predicate IsUnset(fingerprint: Option<string>) {
    fingerprint == None || fingerprint == Some("")
  }

  function WithFingerprintIfUnset(row: Vps, fingerprint: string, now: Time): (Vps, bool) {
    if IsUnset(row.fingerprint) then (row.(fingerprint := Some(fingerprint), updatedAt := now), true) else (row, false)
  }

  function WithToken(row: Vps, tokenHash: string, expiresAt: Time, now: Time): Vps {
    row.(tokenHash := Some(tokenHash), tokenExpires := Some(expiresAt),
         tokenUsedAt := None, receivedAt := None, updatedAt := now)
  }

  predicate Accepts(row: Vps, tokenHash: string, now: Time) {
    && row.tokenHash == Some(tokenHash)
    && row.tokenExpires.Some? && row.tokenExpires.value > now
    && row.tokenUsedAt.None?
    && row.credentials.None?
    && row.status in {"provisioning", "running"}
  }

  function WithCredentials(row: Vps, tokenHash: string, credentials: string, now: Time): (Vps, bool) {
    if Accepts(row, tokenHash, now) then
      (row.(credentials := Some(credentials), tokenHash := None, tokenExpires := None,
            tokenUsedAt := Some(now), receivedAt := Some(now), updatedAt := now), true)
    else (row, false)
  }

  function Coalesce<T>(a: Option<T>, b: Option<T>): Option<T> {
    if a.Some? then a else b
  }

  /** The full-row update writes back a copy read earlier; it leaves the token and
      host-key columns alone and never overwrites credentials with NULL. */
  function Overwritten(row: Vps, copy: Vps, now: Time): Vps {
    row.(profile := copy.profile, status := copy.status,
         credentials := Coalesce(copy.credentials, row.credentials), updatedAt := now)
  }

  function WithStatus(row: Vps, status: string, now: Time): Vps {
    row.(status := status, updatedAt := now)
  }

  /** The callback given to the SSH client: refuse a key other than the stored one. */
  predicate CallbackAccepts(stored: Option<string>, presented: string) {
    IsUnset(stored) || stored == Some(presented)
  }

  class Repository {
    var rows: map<int, Vps>
    var nextId: int

    /** Works on the table as it finds it. */
    constructor (rows: map<int, Vps>, nextId: int)
      ensures this.rows == rows && this.nextId == nextId
    {
      this.rows, this.nextId := rows, nextId;
    }

    method Create(profile: string, status: string, now: Time) returns (id: int)
      modifies this
      ensures id == old(nextId) < nextId
      ensures rows == old(rows)[id := Vps(profile, status, None, None, None, None, None, None, now)]
    {
      id, nextId := nextId, nextId + 1;
      rows := rows[id := Vps(profile, status, None, None, None, None, None, None, now)];
    }

    method Get(id: int) returns (row: Option<Vps>)
      ensures row == if id in rows then Some(rows[id]) else None
    {
      if id !in rows {
        return None;
      }
      return Some(rows[id]);
    }

    method Update(id: int, copy: Vps, now: Time)
      modifies this`rows
      ensures rows == if id in old(rows) then old(rows)[id := Overwritten(old(rows)[id], copy, now)] else old(rows)
      ensures id in old(rows) ==>
        && id in rows
        && rows[id] == old(rows)[id].(profile := copy.profile, status := copy.status,
             credentials := if copy.credentials.Some? then copy.credentials else old(rows)[id].credentials,
             updatedAt := now)
    {
      if id in rows {
        var row := rows[id];
        var credentials := if copy.credentials.Some? then copy.credentials else row.credentials;
        rows := rows[id := row.(profile := copy.profile, status := copy.status,
                                credentials := credentials, updatedAt := now)];
      }
    }

    method UpdateStatus(id: int, status: string, now: Time)
      modifies this`rows
      ensures rows == if id in old(rows) then old(rows)[id := WithStatus(old(rows)[id], status, now)] else old(rows)
      ensures id in old(rows) ==> id in rows && rows[id] == old(rows)[id].(status := status, updatedAt := now)
    {
      if id in rows {
        rows := rows[id := rows[id].(status := status, updatedAt := now)];
      }
    }

    method GetSSHHostKeyFingerprint(id: int) returns (fingerprint: Option<string>)
      ensures fingerprint == if id in rows then rows[id].fingerprint else None
    {
      if id !in rows {
        return None;
      }
      return rows[id].fingerprint;
    }

    method SetSSHHostKeyFingerprintIfUnset(id: int, fingerprint: string, now: Time) returns (set': bool)
      modifies this`rows
      ensures id !in old(rows) ==> !set' && rows == old(rows)
      ensures id in old(rows) ==>
        var (row, changed) := WithFingerprintIfUnset(old(rows)[id], fingerprint, now);
        set' == changed && rows == old(rows)[id := row]
      ensures set' <==>
        id in old(rows) && (old(rows)[id].fingerprint == None || old(rows)[id].fingerprint == Some(""))
      ensures rows
          == if set' then old(rows)[id := old(rows)[id].(fingerprint := Some(fingerprint), updatedAt := now)]
             else old(rows)
    {
      set' := id in rows && (rows[id].fingerprint == None || rows[id].fingerprint == Some(""));
      if set' {
        rows := rows[id := rows[id].(fingerprint := Some(fingerprint), updatedAt := now)];
      } else if id in rows {
        assert rows == rows[id := rows[id]];
      }
    }

    method SetCredentialsCallbackToken(id: int, tokenHash: string, expiresAt: Time, now: Time)
      modifies this`rows
      ensures rows == if id in old(rows) then old(rows)[id := WithToken(old(rows)[id], tokenHash, expiresAt, now)]
                      else old(rows)
      ensures id in old(rows) ==>
        && id in rows
        && rows[id] == old(rows)[id].(tokenHash := Some(tokenHash), tokenExpires := Some(expiresAt),
             tokenUsedAt := None, receivedAt := None, updatedAt := now)
    {
      if id in rows {
        rows := rows[id := rows[id].(tokenHash := Some(tokenHash), tokenExpires := Some(expiresAt),
                                     tokenUsedAt := None, receivedAt := None, updatedAt := now)];
      }
    }

    method ConsumeCredentialsCallback(id: int, tokenHash: string, credentials: string, now: Time)
        returns (consumed: bool)
      modifies this`rows
      ensures consumed == (id in old(rows) && Accepts(old(rows)[id], tokenHash, now))
      ensures rows == if id in old(rows)
                      then old(rows)[id := WithCredentials(old(rows)[id], tokenHash, credentials, now).0] else old(rows)
      ensures consumed <==>
        && id in old(rows) && old(rows)[id].tokenHash == Some(tokenHash)
        && old(rows)[id].tokenExpires.Some? && old(rows)[id].tokenExpires.value > now
        && old(rows)[id].tokenUsedAt == None && old(rows)[id].credentials == None
        && (old(rows)[id].status == "provisioning" || old(rows)[id].status == "running")
      ensures rows
          == if consumed then
               old(rows)[id := old(rows)[id].(credentials := Some(credentials), tokenHash := None, tokenExpires := None,
                         tokenUsedAt := Some(now), receivedAt := Some(now), updatedAt := now)]
             else old(rows)
    {
      consumed := id in rows && Accepts(rows[id], tokenHash, now);
      if consumed {
        rows := rows[id := rows[id].(credentials := Some(credentials), tokenHash := None, tokenExpires := None,
                                     tokenUsedAt := Some(now), receivedAt := Some(now), updatedAt := now)];
      } else if id in rows {
        assert rows == rows[id := rows[id]];
      }
    }

    method Delete(id: int)
      modifies this`rows
      ensures rows == old(rows) - {id}
    {
      rows := rows - {id};
    }

    /** One dial with nobody racing it and no database error: it succeeds exactly
        when the server presents a key that the row does not contradict, and then
        the row holds that key. */
    method DialWithHostKeyPin(id: int, presented: string, now: Time) returns (ok: bool)
      modifies this`rows
      ensures ok <==>
        && id in old(rows) && presented != ""
        && (|| old(rows)[id].fingerprint == None || old(rows)[id].fingerprint == Some("")
            || old(rows)[id].fingerprint == Some(presented))
      ensures ok ==> rows.Keys == old(rows).Keys && rows[id].fingerprint == Some(presented)
      ensures forall other :: other in old(rows) && other != id ==> other in rows && rows[other] == old(rows)[other]
      ensures !ok ==> rows == old(rows)
    {
      var stored := GetSSHHostKeyFingerprint(id);
      if stored.Some? && stored.value != "" && stored.value != presented {
        return false;
      }
      ok := VerifyAndPersist(id, presented, stored, now);
    }

    /** The check after the handshake; `stored` was read before it, and another
        dialer may have written the row since. */
    method VerifyAndPersist(id: int, presented: string, stored: Option<string>, now: Time) returns (ok: bool)
      modifies this`rows
      ensures ok <==>
        && presented != ""
        && if stored == None || stored == Some("") then
             && id in old(rows)
             && (|| old(rows)[id].fingerprint == None || old(rows)[id].fingerprint == Some("")
                 || old(rows)[id].fingerprint == Some(presented))
           else stored == Some(presented)
      ensures rows
          == if && presented != "" && (stored == None || stored == Some("")) && id in old(rows)
                && (old(rows)[id].fingerprint == None || old(rows)[id].fingerprint == Some(""))
             then old(rows)[id := old(rows)[id].(fingerprint := Some(presented), updatedAt := now)] else old(rows)
    {
      if presented == "" {
        return false;
      }
      if stored.Some? && stored.value != "" {
        return stored.value == presented;
      }
      var set' := SetSSHHostKeyFingerprintIfUnset(id, presented, now);
      if set' {
        return true;
      }
      var again := GetSSHHostKeyFingerprint(id);
      return again == Some(presented) && again != Some("");
    }
  }
}
