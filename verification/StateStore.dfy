/** The in-memory state store that gateway replicas share: nonces with expiry, sets and hashes. */
module StateStore {
  import opened Basics

  datatype HashName = QuarantinedIps | RevokedPrincipals | SuspendedAccounts

  datatype SetName = RevokedTokens

  /** A containment record. A suspension carries no expiry; every other record does. */
  datatype Record = Record(actionId: string, reason: string, until: Option<Time>, approvedBy: string)

  /** What the two dictionaries of named collections mean, with an absent name read as empty. */
  datatype Shared = Shared(
    quarantined: map<string, Record>,
    revokedPrincipals: map<string, Record>,
    suspended: map<string, Record>,
    revokedTokens: set<string>)

  function Put(s: Shared, name: HashName, key: string, value: Record): Shared {
    match name
    case QuarantinedIps => s.(quarantined := s.quarantined[key := value])
    case RevokedPrincipals => s.(revokedPrincipals := s.revokedPrincipals[key := value])
    case SuspendedAccounts => s.(suspended := s.suspended[key := value])
  }

  function Drop(s: Shared, name: HashName, key: string): Shared {
    match name
    case QuarantinedIps => s.(quarantined := s.quarantined - {key})
    case RevokedPrincipals => s.(revokedPrincipals := s.revokedPrincipals - {key})
    case SuspendedAccounts => s.(suspended := s.suspended - {key})
  }

  /** `set_nonce_nx`: the nonce table after an attempt to claim `key`, and whether the claim held. */
  function ClaimNonce(nonces: map<string, Time>, key: string, ttl: Time, now: Time): (map<string, Time>, bool) {
    if key in nonces && now <= nonces[key] then (nonces, false) else (nonces[key := now + ttl], true)
  }

  class InMemoryStateStore {
    var nonces: map<string, Time>
    var sets: map<SetName, set<string>>
    var hashes: map<HashName, map<string, Record>>

    constructor ()
      ensures nonces == map[] && View() == Shared(map[], map[], map[], {})
    {
      nonces, sets, hashes := map[], map[], map[];
    }

    function Hash(name: HashName): map<string, Record>
      reads this
    {
      if name in hashes then hashes[name] else map[]
    }

    function Members(name: SetName): set<string>
      reads this
    {
      if name in sets then sets[name] else {}
    }

    function View(): Shared
      reads this
    {
      Shared(Hash(QuarantinedIps), Hash(RevokedPrincipals), Hash(SuspendedAccounts), Members(RevokedTokens))
    }

    method SetNonceNx(key: string, ttl: Time, now: Time) returns (unique: bool)
      modifies this`nonces
      ensures (nonces, unique) == ClaimNonce(old(nonces), key, ttl, now)
    {
      if key in nonces && nonces[key] < now {
        nonces := nonces - {key};
      }
      if key in nonces {
        return false;
      }
      nonces := nonces[key := now + ttl];
      unique := true;
      assert nonces == old(nonces)[key := now + ttl];
    }

    method AddToSet(name: SetName, member: string)
      modifies this`sets
      ensures View() == old(View()).(revokedTokens := old(View()).revokedTokens + {member})
    {
      if name !in sets {
        sets := sets[name := {}];
      }
      sets := sets[name := sets[name] + {member}];
    }

    method RemoveFromSet(name: SetName, member: string) returns (removed: bool)
      modifies this`sets
      ensures removed == (member in old(Members(name)))
      ensures View() == old(View()).(revokedTokens := old(View()).revokedTokens - {member})
    {
      removed := name in sets && member in sets[name];
      if removed {
        sets := sets[name := sets[name] - {member}];
      }
    }

    method SetHashEntry(name: HashName, key: string, value: Record)
      modifies this`hashes
      ensures View() == Put(old(View()), name, key, value)
    {
      if name !in hashes {
        hashes := hashes[name := map[]];
      }
      hashes := hashes[name := hashes[name][key := value]];
    }

    method DeleteHashEntry(name: HashName, key: string) returns (deleted: bool)
      modifies this`hashes
      ensures deleted == (key in old(Hash(name)))
      ensures View() == Drop(old(View()), name, key)
    {
      deleted := name in hashes && key in hashes[name];
      if deleted {
        hashes := hashes[name := hashes[name] - {key}];
      }
    }
  }
}
