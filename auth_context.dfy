/** The session store: the Google credential and its decoded profile, the
    expiry flag and its timer, the chosen player class and NightBringer id,
    and the browser's localStorage as a string-to-string map. Decoding the
    JWT is a partial function given as a parameter; the clock is a parameter
    in milliseconds. */
module AuthContext {
  import opened Wrappers
  import opened Text

  /** The fields of a Google ID token the application reads. */
  datatype JwtPayload = JwtPayload(name: Option<string>, picture: Option<string>, email: Option<string>, exp: Option<int>)

  const LocalKey := "google_credential"
  const LocalClassKey := "selected_player_class"
  const LocalNbId := "nightbringer_id"

  /** The storage key of a user's chosen class. */
  function UserClassKey(email: string): (k: string)
    ensures StartsWith(k, LocalClassKey + "_") && k[|LocalClassKey| + 1..] == email
  {
    var k := LocalClassKey + "_" + email;
    assert k[..|LocalClassKey| + 1] == LocalClassKey + "_";
    k
  }

  /** The storage key of a user's NightBringer id. */
  function UserNBKey(email: string): (k: string)
    ensures StartsWith(k, LocalNbId + "_") && k[|LocalNbId| + 1..] == email
  {
    var k := LocalNbId + "_" + email;
    assert k[..|LocalNbId| + 1] == LocalNbId + "_";
    k
  }

  /** Per-user keys are namespaced: different users never share a key, a
      class key is never a NightBringer key, and neither is one of the three
      global keys. */
  lemma UserKeysSeparate(e1: string, e2: string)
    ensures UserClassKey(e1) == UserClassKey(e2) <==> e1 == e2
    ensures UserNBKey(e1) == UserNBKey(e2) <==> e1 == e2
    ensures UserClassKey(e1) != UserNBKey(e2)
    ensures UserClassKey(e1) !in {LocalKey, LocalClassKey, LocalNbId}
    ensures UserNBKey(e1) !in {LocalKey, LocalClassKey, LocalNbId}
  {
    var c1, c2, n1, n2 := UserClassKey(e1), UserClassKey(e2), UserNBKey(e1), UserNBKey(e2);
    assert c1[0] == 's' && n2[0] == 'n' && LocalKey[0] == 'g';
    assert |c1| > |LocalClassKey| && |n1| > |LocalNbId|;
    assert c1[0] != LocalNbId[0] && n1[0] != LocalClassKey[0];
  }

  function Get(storage: map<string, string>, key: string): (v: Option<string>)
    ensures v.Some? <==> key in storage
    ensures v.Some? ==> v.value == storage[key]
  {
    if key in storage then Some(storage[key]) else None
  }

  /** The class `login` restores for `email`: the stored value when it is
      non-empty, `null` otherwise. */
  function StoredClass(storage: map<string, string>, email: string): (c: Option<string>)
    ensures c.Some? ==> c.value != "" && UserClassKey(email) in storage && storage[UserClassKey(email)] == c.value
    ensures c.None? ==> UserClassKey(email) !in storage || storage[UserClassKey(email)] == ""
  {
    var stored := Get(storage, UserClassKey(email));
    if Truthy(stored) then stored else None
  }

  /** The NightBringer id `login` restores for `email`: `Number` of the stored
      value when it is non-empty, `null` otherwise. */
  function StoredNightBringer(storage: map<string, string>, email: string): (id: Option<int>)
    ensures id.Some? ==> UserNBKey(email) in storage && ParseInt(storage[UserNBKey(email)]) == id
    ensures Truthy(Get(storage, UserNBKey(email))) ==> id == ParseInt(storage[UserNBKey(email)])
    ensures !Truthy(Get(storage, UserNBKey(email))) ==> id.None?
  {
    var stored := Get(storage, UserNBKey(email));
    if Truthy(stored) then ParseInt(stored.value) else None
  }

  /** Storage after `setSelectedClass(cls)` while the profile's email is
      `email`: a non-empty class is written, any other value removes the key,
      and with no email storage is untouched. */
  function StorageAfterSetClass(storage: map<string, string>, email: Option<string>, cls: Option<string>): (s: map<string, string>)
    ensures !Truthy(email) ==> s == storage
    ensures Truthy(email) ==> s.Keys - {UserClassKey(email.value)} == storage.Keys - {UserClassKey(email.value)}
    ensures Truthy(email) ==> forall k :: k in s && k != UserClassKey(email.value) ==> k in storage && s[k] == storage[k]
    ensures Truthy(email) && Truthy(cls) ==> UserClassKey(email.value) in s && s[UserClassKey(email.value)] == cls.value
    ensures Truthy(email) && !Truthy(cls) ==> UserClassKey(email.value) !in s
  {
    if !Truthy(email) then storage
    else
      var key := UserClassKey(email.value);
      if Truthy(cls) then storage[key := cls.value] else storage - {key}
  }

  /** Storage after `setNightBringerId(id)`: `String(id)` is written, `null`
      removes the key, and with no email storage is untouched. */
  function StorageAfterSetNightBringer(storage: map<string, string>, email: Option<string>, id: Option<int>): (s: map<string, string>)
    ensures !Truthy(email) ==> s == storage
    ensures Truthy(email) ==> s.Keys - {UserNBKey(email.value)} == storage.Keys - {UserNBKey(email.value)}
    ensures Truthy(email) ==> forall k :: k in s && k != UserNBKey(email.value) ==> k in storage && s[k] == storage[k]
    ensures Truthy(email) && id.Some? ==> UserNBKey(email.value) in s && s[UserNBKey(email.value)] == IntToString(id.value)
    ensures Truthy(email) && id.None? ==> UserNBKey(email.value) !in s
  {
    if !Truthy(email) then storage
    else
      var key := UserNBKey(email.value);
      match id
      case None => storage - {key}
      case Some(n) => storage[key := IntToString(n)]
  }

  /** Storage after `logout`: the credential and the two legacy unsuffixed
      keys are removed. */
  function StorageAfterLogout(storage: map<string, string>): (s: map<string, string>)
    ensures s.Keys == storage.Keys - {LocalKey, LocalClassKey, LocalNbId}
    ensures forall k :: k in s ==> k in storage && s[k] == storage[k]
  {
    storage - {LocalKey, LocalClassKey, LocalNbId}
  }

  /** A class chosen by a user is what that user's next login restores; an
      empty or null choice restores nothing. */
  lemma SetClassThenRestore(storage: map<string, string>, email: string, cls: Option<string>)
    requires email != ""
    ensures StoredClass(StorageAfterSetClass(storage, Some(email), cls), email) == if Truthy(cls) then cls else None
  {
  }

  /** A NightBringer id set by a user is what that user's next login restores. */
  lemma SetNightBringerThenRestore(storage: map<string, string>, email: string, id: Option<int>)
    requires email != ""
    ensures StoredNightBringer(StorageAfterSetNightBringer(storage, Some(email), id), email) == id
  {
    if id.Some? {
      var s := StorageAfterSetNightBringer(storage, Some(email), id);
      assert s[UserNBKey(email)] == IntToString(id.value);
      IntToStringRoundTrip(id.value);
    }
  }

  /** Setting one user's class changes nothing another user or the
      NightBringer ids restore. */
  lemma SetClassIsolated(storage: map<string, string>, email: string, cls: Option<string>, other: string)
    requires email != other
    ensures StoredClass(StorageAfterSetClass(storage, Some(email), cls), other) == StoredClass(storage, other)
    ensures StoredNightBringer(StorageAfterSetClass(storage, Some(email), cls), other) == StoredNightBringer(storage, other)
    ensures StoredNightBringer(StorageAfterSetClass(storage, Some(email), cls), email) == StoredNightBringer(storage, email)
  {
    UserKeysSeparate(email, other);
    UserKeysSeparate(other, email);
    UserKeysSeparate(email, email);
  }

  /** Logging out keeps every user's saved class and NightBringer id. */
  lemma LogoutKeepsUserData(storage: map<string, string>, email: string)
    ensures StoredClass(StorageAfterLogout(storage), email) == StoredClass(storage, email)
    ensures StoredNightBringer(StorageAfterLogout(storage), email) == StoredNightBringer(storage, email)
  {
    UserKeysSeparate(email, email);
  }

  /** `Math.floor(Date.now() / 1000)`; Dafny's integer division by a positive
      number is the floor. */
  function NowSeconds(nowMs: int): int {
    nowMs / 1000
  }

  /** The outcome of `evaluateExpiration`: expired, or the seconds left. */
  datatype Expiry = Expired | Remaining(seconds: int)

  /** Expired when there is no payload, `exp` is missing or 0, or no time is
      left; otherwise the positive number of seconds left. */
  function ExpirationVerdict(payload: Option<JwtPayload>, nowMs: int): (v: Expiry)
    ensures v.Expired? <==>
      payload.None? || payload.value.exp.None? || payload.value.exp.value == 0
      || payload.value.exp.value - NowSeconds(nowMs) <= 0
    ensures v.Remaining? ==> v.seconds > 0 && v.seconds == payload.value.exp.value - NowSeconds(nowMs)
  {
    if payload.None? || payload.value.exp.None? || payload.value.exp.value == 0 then Expired
    else
      var remaining := payload.value.exp.value - NowSeconds(nowMs);
      if remaining <= 0 then Expired else Remaining(remaining)
  }

  /** The startup test `decoded.exp && decoded.exp > nowSec` agrees with
      `evaluateExpiration` when both read the same clock value. The mount
      effect reads the clock twice, so the two can still disagree; see
      `StartupReadsCanStraddleExpiry`. */
  lemma StartupTestAgreesWithVerdict(p: JwtPayload, nowMs: int)
    ensures (p.exp.Some? && p.exp.value != 0 && p.exp.value > NowSeconds(nowMs))
        <==> ExpirationVerdict(Some(p), nowMs).Remaining?
  {
  }

  /** The startup test and `evaluateExpiration` each read the clock. When the
      second reading falls one millisecond later, on the token's expiry
      second, a session passes the test and is then marked expired. */
  lemma StartupReadsCanStraddleExpiry()
    ensures var p := JwtPayload(None, None, None, Some(2));
      && p.exp.value > NowSeconds(1999)
      && ExpirationVerdict(Some(p), 2000).Expired?
  {
  }

  predicate HasEmail(p: Option<JwtPayload>) {
    p.Some? && Truthy(p.value.email)
  }

  function EmailOf(p: Option<JwtPayload>): Option<string> {
    if p.Some? then p.value.email else None
  }

  class AuthStore {
    var credential: Option<string>
    var profile: Option<JwtPayload>
    var isExpired: bool
    var initialized: bool
    var selectedClass: Option<string>
    var nightBringerId: Option<int>
    /** `timeoutRef`: when the pending expiry timer fires, in milliseconds. */
    var timer: Option<int>
    /** The browser's localStorage. */
    var storage: map<string, string>

    constructor (storage: map<string, string>)
      ensures this.storage == storage
      ensures credential.None? && profile.None? && !isExpired && !initialized
      ensures selectedClass.None? && nightBringerId.None? && timer.None?
    {
      this.storage := storage;
      credential := None;
      profile := None;
      isExpired := false;
      initialized := false;
      selectedClass := None;
      nightBringerId := None;
      timer := None;
    }

    /** `isAuthenticated`: a non-empty credential, a profile, and not expired. */
    function IsAuthenticated(): (b: bool)
      reads this
      ensures b <==> Truthy(credential) && profile.Some? && !isExpired
    {
      Truthy(credential) && profile.Some? && !isExpired
    }

    method ClearTimer()
      modifies this`timer
      ensures timer.None?
    {
      if timer.Some? {
        timer := None;
      }
    }

    /** `evaluateExpiration`: an expired payload only sets the flag; a live one
        clears it and replaces the timer by one due when the token expires. */
    method EvaluateExpiration(payload: Option<JwtPayload>, nowMs: int)
      modifies this`isExpired, this`timer
      ensures isExpired == ExpirationVerdict(payload, nowMs).Expired?
      ensures ExpirationVerdict(payload, nowMs).Expired? ==> timer == old(timer)
      ensures ExpirationVerdict(payload, nowMs).Remaining? ==>
        timer == Some(nowMs + ExpirationVerdict(payload, nowMs).seconds * 1000)
    {
      if payload.None? || payload.value.exp.None? || payload.value.exp.value == 0 {
        isExpired := true;
        return;
      }
      var nowSec := NowSeconds(nowMs);
      var remaining := payload.value.exp.value - nowSec;
      if remaining <= 0 {
        isExpired := true;
        return;
      }
      isExpired := false;
      ClearTimer();
      timer := Some(nowMs + remaining * 1000);
    }

    /** `logout`: clears the timer, removes the credential and the legacy
        keys, and resets every session field. Per-user keys stay. */
    method Logout()
      modifies this`timer, this`storage, this`credential, this`profile, this`selectedClass,
               this`nightBringerId, this`isExpired
      ensures timer.None? && storage == StorageAfterLogout(old(storage))
      ensures credential.None? && profile.None? && selectedClass.None? && nightBringerId.None?
      ensures !isExpired && !IsAuthenticated()
    {
      ClearTimer();
      storage := storage - {LocalKey, LocalClassKey, LocalNbId};
      credential := None;
      profile := None;
      selectedClass := None;
      nightBringerId := None;
      isExpired := false;
    }

    /** `login(cred)`. `decode` is `jwtDecode`, `None` where it throws. */
    method Login(cred: string, decode: string -> Option<JwtPayload>, nowMs: int)
      modifies this`timer, this`storage, this`credential, this`profile, this`selectedClass,
               this`nightBringerId, this`isExpired
      ensures decode(cred).None? ==>
        && storage == StorageAfterLogout(old(storage)[LocalKey := cred])
        && credential.None? && profile.None? && selectedClass.None? && nightBringerId.None?
        && !isExpired && timer.None?
      ensures decode(cred).Some? ==>
        && storage == old(storage)[LocalKey := cred]
        && credential == Some(cred) && profile == decode(cred)
        && isExpired == ExpirationVerdict(decode(cred), nowMs).Expired?
        && (ExpirationVerdict(decode(cred), nowMs).Remaining? ==>
              timer == Some(nowMs + ExpirationVerdict(decode(cred), nowMs).seconds * 1000))
        && (ExpirationVerdict(decode(cred), nowMs).Expired? ==> timer == old(timer))
      ensures HasEmail(decode(cred)) ==>
        && selectedClass == StoredClass(old(storage), decode(cred).value.email.value)
        && nightBringerId == StoredNightBringer(old(storage), decode(cred).value.email.value)
      ensures decode(cred).Some? && !HasEmail(decode(cred)) ==>
        selectedClass == old(selectedClass) && nightBringerId == old(nightBringerId)
      ensures decode(cred).Some? ==> (IsAuthenticated() <==> cred != "" && ExpirationVerdict(decode(cred), nowMs).Remaining?)
    {
      storage := storage[LocalKey := cred];
      credential := Some(cred);
      var decoded := decode(cred);
      if decoded.None? {
        profile := None;
        Logout();
        return;
      }
      profile := decoded;
      if Truthy(decoded.value.email) {
        var email := decoded.value.email.value;
        UserKeysSeparate(email, email);
        var storedClass := Get(storage, UserClassKey(email));
        if Truthy(storedClass) {
          selectedClass := storedClass;
        } else {
          selectedClass := None;
        }
        var storedNB := Get(storage, UserNBKey(email));
        if Truthy(storedNB) {
          nightBringerId := ParseInt(storedNB.value);
        } else {
          nightBringerId := None;
        }
      }
      EvaluateExpiration(decoded, nowMs);
    }

    /** The expiry timer's callback: marks the session expired, then logs out,
        and `logout` resets the flag, so the store ends logged out and not
        expired. */
    method ExpiryTimerFires()
      modifies this`timer, this`storage, this`credential, this`profile, this`selectedClass,
               this`nightBringerId, this`isExpired
      ensures storage == StorageAfterLogout(old(storage)) && timer.None?
      ensures credential.None? && profile.None? && selectedClass.None? && nightBringerId.None?
      ensures !isExpired && !IsAuthenticated()
    {
      isExpired := true;
      Logout();
    }

    /** The mount effect. A stored credential whose token decodes with an
        `exp` in the future is restored; any other stored credential is logged
        out. Then, for any stored credential that decodes with an email, the
        user's saved class and NightBringer id are loaded when present, also
        after the logout of an expired credential. */
    method Startup(decode: string -> Option<JwtPayload>, nowTest: int, nowEval: int)
      modifies this
      ensures initialized
      ensures !Truthy(Get(old(storage), LocalKey)) ==>
        && storage == old(storage) && credential == old(credential) && profile == old(profile)
        && isExpired == old(isExpired) && timer == old(timer)
        && selectedClass == old(selectedClass) && nightBringerId == old(nightBringerId)
      ensures Truthy(Get(old(storage), LocalKey)) ==>
        var stored := old(storage)[LocalKey];
        var decoded := decode(stored);
        var restored := decoded.Some? && decoded.value.exp.Some? && decoded.value.exp.value != 0
                        && decoded.value.exp.value > NowSeconds(nowTest);
        && (restored ==>
              && storage == old(storage) && credential == Some(stored) && profile == decoded
              && isExpired == ExpirationVerdict(decoded, nowEval).Expired?
              && (ExpirationVerdict(decoded, nowEval).Remaining? ==>
                    timer == Some(nowEval + ExpirationVerdict(decoded, nowEval).seconds * 1000))
              && (ExpirationVerdict(decoded, nowEval).Expired? ==> timer == old(timer))
              && (NowSeconds(nowEval) == NowSeconds(nowTest) ==> !isExpired))
        && (!restored ==>
              && storage == StorageAfterLogout(old(storage)) && timer.None?
              && credential.None? && profile.None? && !isExpired && !IsAuthenticated())
        && (!HasEmail(decoded) ==>
              && selectedClass == (if restored then old(selectedClass) else None)
              && nightBringerId == (if restored then old(nightBringerId) else None))
        && (HasEmail(decoded) && StoredClass(old(storage), decoded.value.email.value).Some? ==>
              selectedClass == StoredClass(old(storage), decoded.value.email.value))
        && (HasEmail(decoded) && StoredClass(old(storage), decoded.value.email.value).None? ==>
              selectedClass == (if restored then old(selectedClass) else None))
        && (HasEmail(decoded) && Truthy(Get(old(storage), UserNBKey(decoded.value.email.value))) ==>
              nightBringerId == StoredNightBringer(old(storage), decoded.value.email.value))
        && (HasEmail(decoded) && !Truthy(Get(old(storage), UserNBKey(decoded.value.email.value))) ==>
              nightBringerId == (if restored then old(nightBringerId) else None))
    {
      var stored := Get(storage, LocalKey);
      if Truthy(stored) {
        var decoded := decode(stored.value);
        if decoded.None? {
          Logout();
        } else {
          var nowSec := NowSeconds(nowTest);
          var exp := decoded.value.exp;
          if exp.Some? && exp.value != 0 && exp.value > nowSec {
            credential := stored;
            profile := decoded;
            EvaluateExpiration(decoded, nowEval);
          } else {
            Logout();
          }
        }
      }
      if Truthy(stored) {
        var decoded := decode(stored.value);
        if decoded.Some? && Truthy(decoded.value.email) {
          var email := decoded.value.email.value;
          UserKeysSeparate(email, email);
          var storedClass := Get(storage, UserClassKey(email));
          if Truthy(storedClass) {
            selectedClass := storedClass;
          }
          var storedNB := Get(storage, UserNBKey(email));
          if Truthy(storedNB) {
            nightBringerId := ParseInt(storedNB.value);
          }
        }
      }
      initialized := true;
    }

    /** The mount effect's cleanup. */
    method Unmount()
      modifies this`timer
      ensures timer.None?
    {
      ClearTimer();
    }

    /** `setSelectedClass(cls)`. */
    method SetSelectedClass(cls: Option<string>)
      modifies this`selectedClass, this`storage
      ensures selectedClass == cls
      ensures storage == StorageAfterSetClass(old(storage), EmailOf(profile), cls)
    {
      selectedClass := cls;
      var email := EmailOf(profile);
      if Truthy(email) {
        var userClassKey := UserClassKey(email.value);
        if Truthy(cls) {
          storage := storage[userClassKey := cls.value];
        } else {
          storage := storage - {userClassKey};
        }
      }
    }

    /** `setNightBringerId(id)`. */
    method SetNightBringerId(id: Option<int>)
      modifies this`nightBringerId, this`storage
      ensures nightBringerId == id
      ensures storage == StorageAfterSetNightBringer(old(storage), EmailOf(profile), id)
    {
      nightBringerId := id;
      var email := EmailOf(profile);
      if Truthy(email) {
        var userNBKey := UserNBKey(email.value);
        if id.None? {
          storage := storage - {userNBKey};
        } else {
          storage := storage[userNBKey := IntToString(id.value)];
        }
      }
    }
  }
}
