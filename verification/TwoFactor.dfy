/** Second-factor codes: within one enrolment the backup codes are conserved, by
    any interleaving of verifications, each from its own stale copy of the user. */
module TwoFactor {
  import opened Common

  const BACKUP_CODE_COUNT: nat := 10

  predicate IsHex(c: char) { IsDigit(c) || 'a' <= c <= 'f' }

  predicate LooksLikeTotp(code: string) { |code| == 6 && forall i :: 0 <= i < |code| ==> IsDigit(code[i]) }

  predicate LooksLikeBackup(code: string) { |code| == 8 && forall i :: 0 <= i < |code| ==> IsHex(code[i]) }

  /** The stored columns: no secret means not enrolled. */
  datatype Enrolment = Enrolment(enabled: bool, codes: seq<string>)

  const OFF := Enrolment(false, [])

  function IndexOf(codes: seq<string>, code: string): (r: Option<nat>)
    ensures r.Some? ==> r.value < |codes| && codes[r.value] == code && code !in codes[..r.value]
    ensures r.None? ==> code !in codes
  {
    if codes == [] then None
    else if codes[0] == code then Some(0)
    else
      match IndexOf(codes[1..], code)
      case None => None
      case Some(i) => Some(i + 1)
  }

  datatype Verdict = TotpAccepted | BackupAccepted | Refused

  datatype Event =
    | Enable(codes: seq<string>)
    | Disable
    | Verify(copyEnabled: bool, code: string, totpOk: bool)

  /** `copyEnabled` is what the caller's loaded user says; `totpOk` is the answer of the TOTP check. */
  function VerdictOf(e: Enrolment, v: Event): Verdict
    requires v.Verify?
  {
    var normalized := Canonical(v.code);
    if !v.copyEnabled then Refused
    else if LooksLikeTotp(normalized) then if v.totpOk then TotpAccepted else Refused
    else if LooksLikeBackup(normalized) && IndexOf(e.codes, normalized).Some? then BackupAccepted
    else Refused
  }

  function Without(codes: seq<string>, code: string): seq<string> {
    match IndexOf(codes, code)
    case None => codes
    case Some(i) => codes[..i] + codes[i + 1..]
  }

  function Step(e: Enrolment, v: Event): Enrolment {
    match v
    case Enable(codes) => Enrolment(true, codes)
    case Disable => OFF
    case Verify(_, code, _) => if VerdictOf(e, v).BackupAccepted? then e.(codes := Without(e.codes, Canonical(code))) else e
  }

  // ---- What a verification answers

  predicate SixDigits(s: string) {
    |s| == 6 && forall c :: c in s ==> c in "0123456789"
  }

  predicate EightHex(s: string) {
    |s| == 8 && forall c :: c in s ==> c in "0123456789abcdef"
  }

  lemma PatternsAreThese(s: string)
    ensures (LooksLikeTotp(s) <==> SixDigits(s)) && (LooksLikeBackup(s) <==> EightHex(s))
  {
    assert forall c :: c in "0123456789" <==> IsDigit(c);
    assert forall c :: c in "0123456789abcdef" <==> IsHex(c);
    if SixDigits(s) {
      assert forall i :: 0 <= i < |s| ==> s[i] in s;
    }
    if EightHex(s) {
      assert forall i :: 0 <= i < |s| ==> s[i] in s;
    }
  }

  /** Accepted are exactly six digits the TOTP check confirms and eight hexadecimal digits
      that are a stored code, both only for an enrolled user; the latter takes one stored
      code away, and nothing else changes the enrolment. */
  lemma VerifiedIff(e: Enrolment, copyEnabled: bool, code: string, totpOk: bool)
    ensures var (v, s) := (Verify(copyEnabled, code, totpOk), Canonical(code));
            && (VerdictOf(e, v) != Refused <==> copyEnabled && ((SixDigits(s) && totpOk) || (EightHex(s) && s in e.codes)))
            && Step(e, v).enabled == e.enabled
            && multiset(Step(e, v).codes) == multiset(e.codes) - (if copyEnabled && EightHex(s) then multiset{s} else multiset{})
            && (!(copyEnabled && EightHex(s)) ==> Step(e, v) == e)
  {
    var s := Canonical(code);
    PatternsAreThese(s);
    assert |s| == 6 ==> !EightHex(s);
    hide Canonical, LooksLikeTotp, LooksLikeBackup, SixDigits;
    if s in e.codes {
      WithoutTakesOne(e.codes, s);
    }
  }

  /** The user row; each method is one transaction on it. */
  class Account {
    var enrolment: Enrolment

    constructor ()
      ensures enrolment == OFF
    {
      enrolment := OFF;
    }

    /** enable_two_factor!, with the codes the random source yields. */
    method EnableTwoFactor(random: seq<string>) returns (codes: seq<string>)
      requires |random| == BACKUP_CODE_COUNT
      modifies this
      ensures enrolment == Step(old(enrolment), Enable(random)) && codes == random
    {
      codes := random;
      enrolment := Enrolment(true, codes);
    }

    method DisableTwoFactor()
      modifies this
      ensures enrolment == Step(old(enrolment), Disable)
    {
      enrolment := OFF;
    }

    /** verify_otp: only the backup-code branch takes the lock and reloads. */
    method VerifyOtp(copyEnabled: bool, code: string, totpOk: bool) returns (ok: bool)
      modifies this
      ensures enrolment == Step(old(enrolment), Verify(copyEnabled, code, totpOk))
      ensures ok <==> VerdictOf(old(enrolment), Verify(copyEnabled, code, totpOk)) != Refused
      ensures var s := Canonical(code);
              ok <==> copyEnabled && ((SixDigits(s) && totpOk) || (EightHex(s) && s in old(enrolment).codes))
      ensures enrolment != old(enrolment) ==> ok && EightHex(Canonical(code))
    {
      VerifiedIff(enrolment, copyEnabled, code, totpOk);
      if !copyEnabled {
        return false;
      }
      var normalized := Canonical(code);
      if LooksLikeTotp(normalized) {
        return totpOk;
      }
      if LooksLikeBackup(normalized) {
        ok := ConsumeBackupCode(normalized);
        return;
      }
      return false;
    }

    /** consume_backup_code!, under the row lock. */
    method ConsumeBackupCode(code: string) returns (ok: bool)
      modifies this
      ensures ok <==> code in old(enrolment).codes
      ensures enrolment == old(enrolment).(codes := Without(old(enrolment).codes, code))
    {
      var codes := enrolment.codes;
      var index := IndexOf(codes, code);
      if index.None? {
        return false;
      }
      codes := codes[..index.value] + codes[index.value + 1..];
      enrolment := enrolment.(codes := codes);
      return true;
    }
  }

  // ---- Conservation

  lemma WithoutTakesOne(codes: seq<string>, code: string)
    requires code in codes
    ensures multiset(Without(codes, code)) + multiset{code} == multiset(codes)
  {
    var i := IndexOf(codes, code).value;
    assert codes == codes[..i] + [code] + codes[i + 1..];
  }

  function After(e: Enrolment, run: seq<Event>): Enrolment
    decreases run
  {
    if run == [] then e else After(Step(e, run[0]), run[1..])
  }

  /** The backup codes the run accepted. */
  function Accepted(e: Enrolment, run: seq<Event>): multiset<string>
    decreases run
  {
    if run == [] then multiset{}
    else
      (if run[0].Verify? && VerdictOf(e, run[0]) == BackupAccepted then multiset{Canonical(run[0].code)} else multiset{})
      + Accepted(Step(e, run[0]), run[1..])
  }

  predicate OnlyVerifications(run: seq<Event>) {
    forall i :: 0 <= i < |run| ==> run[i].Verify?
  }

  /** Within one enrolment: what is left and what was accepted is what was issued. */
  lemma {:induction false} CodesAreConserved(e: Enrolment, run: seq<Event>)
    requires OnlyVerifications(run)
    ensures multiset(After(e, run).codes) + Accepted(e, run) == multiset(e.codes)
    decreases run
  {
    if run != [] {
      CodesAreConserved(Step(e, run[0]), run[1..]);
      if VerdictOf(e, run[0]) == BackupAccepted {
        WithoutTakesOne(e.codes, Canonical(run[0].code));
      }
    }
  }

  lemma {:induction false} SizeOfMultiset(codes: seq<string>)
    ensures |multiset(codes)| == |codes|
  {
    if codes != [] {
      SizeOfMultiset(codes[1..]);
      assert codes == [codes[0]] + codes[1..];
    }
  }

  /** Ten codes are issued, so at most ten backup-code logins happen. */
  lemma AtMostTenBackupLogins(e: Enrolment, codes: seq<string>, run: seq<Event>)
    requires |codes| == BACKUP_CODE_COUNT && OnlyVerifications(run)
    ensures |Accepted(Step(e, Enable(codes)), run)| <= BACKUP_CODE_COUNT
  {
    CodesAreConserved(Step(e, Enable(codes)), run);
    SizeOfMultiset(codes);
    SizeOfMultiset(After(Step(e, Enable(codes)), run).codes);
  }

  /** A code is accepted as often as it was issued, and then no more. */
  lemma UsedUpIsRefused(e: Enrolment, run: seq<Event>, code: string, totpOk: bool)
    requires OnlyVerifications(run) && LooksLikeBackup(Canonical(code))
    requires Accepted(e, run)[Canonical(code)] == multiset(e.codes)[Canonical(code)]
    ensures VerdictOf(After(e, run), Verify(true, code, totpOk)) == Refused
  {
    CodesAreConserved(e, run);
    assert multiset(After(e, run).codes)[Canonical(code)] == 0;
  }

  /** While second factors are off no backup code is accepted, however stale the caller's copy. */
  lemma DisablingVoidsCodes(e: Enrolment, run: seq<Event>, code: string, copyEnabled: bool, totpOk: bool)
    requires OnlyVerifications(run)
    ensures VerdictOf(After(Step(e, Disable), run), Verify(copyEnabled, code, totpOk)) != BackupAccepted
  {
    CodesAreConserved(OFF, run);
    SizeOfMultiset(After(OFF, run).codes);
  }

  /** A new enrolment honours its own codes only: none of an earlier one, and none more
      often than it was issued, however stale the caller's copy. */
  lemma NewEnrolmentVoidsOldCodes(e: Enrolment, codes: seq<string>, run: seq<Event>, code: string, copyEnabled: bool, totpOk: bool)
    requires OnlyVerifications(run)
    requires var before := Step(e, Enable(codes));
             VerdictOf(After(before, run), Verify(copyEnabled, code, totpOk)) == BackupAccepted
    ensures Canonical(code) in codes
    ensures Accepted(Step(e, Enable(codes)), run)[Canonical(code)] < multiset(codes)[Canonical(code)]
  {
    var before := Step(e, Enable(codes));
    CodesAreConserved(before, run);
    assert Canonical(code) in multiset(After(before, run).codes);
    assert Canonical(code) in multiset(codes);
  }

  /** From a copy loaded now, every issued code works until it is used up, and after
      disabling nothing does. */
  lemma IssuedCodeWorks(e: Enrolment, codes: seq<string>, run: seq<Event>, code: string, totpOk: bool)
    requires OnlyVerifications(run) && EightHex(Canonical(code))
    requires Accepted(Step(e, Enable(codes)), run)[Canonical(code)] < multiset(codes)[Canonical(code)]
    ensures var later := After(Step(e, Enable(codes)), run);
            VerdictOf(later, Verify(later.enabled, code, totpOk)) == BackupAccepted
    ensures VerdictOf(Step(e, Disable), Verify(Step(e, Disable).enabled, code, totpOk)) == Refused
  {
    var begun := Step(e, Enable(codes));
    CodesAreConserved(begun, run);
    StaysEnabled(begun, run);
    var later := After(begun, run);
    assert multiset(later.codes)[Canonical(code)] > 0;
    assert Canonical(code) in later.codes;
    VerifiedIff(later, later.enabled, code, totpOk);
    PatternsAreThese(Canonical(code));
  }

  lemma {:induction false} StaysEnabled(e: Enrolment, run: seq<Event>)
    requires OnlyVerifications(run)
    ensures After(e, run).enabled == e.enabled
    decreases run
  {
    if run != [] {
      StaysEnabled(Step(e, run[0]), run[1..]);
    }
  }
}
