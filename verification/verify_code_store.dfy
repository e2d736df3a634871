/**
 * `EmailVerifyCodeStore`: one-time codes in the shared store. A code is a
 * random UUID without its dashes; its payload (the serialised
 * `VerifyCodePayload`) lives under "email_verify_code:" + code for five
 * minutes and is removed the first time it is read back.
 */
module VerifyCodes {
  import opened Common
  import opened KeyValue

  const Prefix: string := "email_verify_code:"
  /** Five minutes, in seconds. */
  const Ttl: nat := 300

  /** `replace("-", "")`: every dash removed, the other characters kept in order. */
  function WithoutDashes(s: string): (r: string)
    ensures '-' !in r
    ensures |r| <= |s|
    decreases |s|
  {
    if |s| == 0 then []
    else if s[0] == '-' then WithoutDashes(s[1..])
    else [s[0]] + WithoutDashes(s[1..])
  }

  lemma {:induction false} WithoutDashesOfPlain(s: string)
    requires '-' !in s
    ensures WithoutDashes(s) == s
    decreases |s|
  {
    if |s| > 0 {
      assert s[0] != '-';
      WithoutDashesOfPlain(s[1..]);
    }
  }

  function KeyOf(code: string): string {
    Prefix + code
  }

  /** `issueCode` on a snapshot: the store after the write, and the code. */
  function IssueF(s: Snapshot, uuid: string, payload: string): (r: (Snapshot, string))
    ensures '-' !in r.1
    ensures GetF(r.0, KeyOf(r.1)) == Some(payload) && KeyOf(r.1) in r.0.ttls && r.0.ttls[KeyOf(r.1)] == Ttl
  {
    var code := WithoutDashes(uuid);
    (SetF(s, KeyOf(code), payload, Some(Ttl)), code)
  }

  /** `consumeCode` on a snapshot: an absent code gives nothing and no change; a present one is read and deleted. */
  function ConsumeF(s: Snapshot, code: string): (r: (Snapshot, Option<string>))
    ensures r.1 == GetF(s, KeyOf(code))
    ensures r.1.None? ==> r.0 == s
    ensures r.1.Some? ==> !Exists(r.0, KeyOf(code)) && KeyOf(code) !in r.0.ttls
  {
    var key := KeyOf(code);
    match GetF(s, key)
    case None => (s, None)
    case Some(payload) => (DeleteF(s, key).0, Some(payload))
  }

  /** What is issued can be consumed once, and gives back the payload. */
  lemma IssueThenConsume(s: Snapshot, uuid: string, payload: string)
    ensures var (s1, code) := IssueF(s, uuid, payload);
      ConsumeF(s1, code).1 == Some(payload)
  {
  }

  /** A consumed code is gone: consuming it again gives nothing and changes nothing. */
  lemma ConsumeTwice(s: Snapshot, code: string)
    ensures var s1 := ConsumeF(s, code).0;
      ConsumeF(s1, code) == (s1, None)
  {
    var s1 := ConsumeF(s, code).0;
    assert KeyOf(code) !in s1.strings by {
      if GetF(s, KeyOf(code)).Some? {
        assert !Exists(s1, KeyOf(code));
      }
    }
  }

  /** Neither operation touches a key other than its own. */
  lemma OnlyItsKey(s: Snapshot, uuid: string, payload: string, code: string, other: string)
    ensures other != KeyOf(IssueF(s, uuid, payload).1) ==> At(IssueF(s, uuid, payload).0, other) == At(s, other)
    ensures other != KeyOf(code) ==> At(ConsumeF(s, code).0, other) == At(s, other)
  {
    var c := IssueF(s, uuid, payload).1;
    if other != KeyOf(c) {
      OpTouchesOnlyItsKey(s, OpSet(KeyOf(c), payload, Some(Ttl)), other);
    }
    if other != KeyOf(code) && GetF(s, KeyOf(code)).Some? {
      OpTouchesOnlyItsKey(s, OpDelete(KeyOf(code)), other);
    }
  }

  /** `issueCode`: the UUID (without dashes) is the code; the payload is written under its key for five minutes. */
  method IssueCode(store: Store, uuid: string, payload: string) returns (code: string)
    modifies store
    ensures (store.State(), code) == IssueF(old(store.State()), uuid, payload)
  {
    code := WithoutDashes(uuid);
    store.Set(KeyOf(code), payload, Some(Ttl));
  }

  /** `consumeCode`: read, and delete what was read. */
  method ConsumeCode(store: Store, code: string) returns (payload: Option<string>)
    modifies store
    ensures (store.State(), payload) == ConsumeF(old(store.State()), code)
  {
    var key := KeyOf(code);
    payload := store.Get(key);
    if payload.None? {
      return;
    }
    var _ := store.Delete(key);
  }
}
