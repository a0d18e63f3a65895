/** The email gate: the address check and the form's submit and edit handlers
    (src/components/EmailForm.tsx). */
module Email {
  import opened Js

  const EmptyMessage := "이메일을 입력해주세요"
  const InvalidMessage := "유효한 이메일 주소를 입력해주세요"

  /** The characters the regular-expression class `\s` matches in JavaScript. */
  predicate IsSpace(c: char) {
    var n := c as int;
    || 0x09 <= n <= 0x0D || n == 0x20 || n == 0xA0 || n == 0x1680 || 0x2000 <= n <= 0x200A
    || n == 0x2028 || n == 0x2029 || n == 0x202F || n == 0x205F || n == 0x3000 || n == 0xFEFF
  }

  /** The class `[^\s@]`. */
  predicate IsAddressChar(c: char) {
    !IsSpace(c) && c != '@'
  }

  predicate AllAddressChars(s: string) {
    forall i :: 0 <= i < |s| ==> IsAddressChar(s[i])
  }

  /** `validateEmail`: the whole string matches `^[^\s@]+@[^\s@]+\.[^\s@]+$`, that is, it
      splits into three non-empty runs of `[^\s@]` separated by an '@' and then a '.'. An
      accepted address has at least five characters, contains an '@', and neither starts
      nor ends with an '@' or a whitespace character. */
  predicate ValidateEmail(email: string)
    ensures ValidateEmail(email) ==>
      5 <= |email| && '@' in email && IsAddressChar(email[0]) && IsAddressChar(email[|email| - 1])
  {
    exists at, dot | 0 < at && at + 1 < dot < |email| - 1 ::
      email[at] == '@' && email[dot] == '.' &&
      AllAddressChars(email[..at]) && AllAddressChars(email[at + 1..dot]) && AllAddressChars(email[dot + 1..])
  }

  /** The same set of addresses described by their parts: no whitespace anywhere, exactly
      one '@' with something before it, and after it a '.' with something on each side. */
  ghost predicate WellFormedAddress(s: string) {
    && (forall i :: 0 <= i < |s| ==> !IsSpace(s[i]))
    && exists k :: 0 < k < |s| && s[k] == '@' && (forall i :: 0 <= i < |s| && s[i] == '@' ==> i == k)
         && exists j :: k + 1 < j < |s| - 1 && s[j] == '.'
  }

  /** Every address the pattern accepts is well formed. */
  lemma ValidatedIsWellFormed(s: string)
    requires ValidateEmail(s)
    ensures WellFormedAddress(s)
  {
    var at, dot :| 0 < at && at + 1 < dot < |s| - 1 &&
      s[at] == '@' && s[dot] == '.' &&
      AllAddressChars(s[..at]) && AllAddressChars(s[at + 1..dot]) && AllAddressChars(s[dot + 1..]);
    forall i | 0 <= i < |s| && i != at && i != dot ensures IsAddressChar(s[i]) {
      if i < at { assert s[..at][i] == s[i]; }
      else if i < dot { assert s[at + 1..dot][i - at - 1] == s[i]; }
      else { assert s[dot + 1..][i - dot - 1] == s[i]; }
    }
    assert forall i :: 0 <= i < |s| && s[i] == '@' ==> i == at;
    assert at + 1 < dot < |s| - 1 && s[dot] == '.';
  }

  /** Every well-formed address is accepted by the pattern. */
  lemma WellFormedIsValidated(s: string)
    requires WellFormedAddress(s)
    ensures ValidateEmail(s)
  {
    var k :| 0 < k < |s| && s[k] == '@' && (forall i :: 0 <= i < |s| && s[i] == '@' ==> i == k)
       && exists j :: k + 1 < j < |s| - 1 && s[j] == '.';
    var j :| k + 1 < j < |s| - 1 && s[j] == '.';
    var user, host, top := s[..k], s[k + 1..j], s[j + 1..];
    assert AllAddressChars(user) by {
      forall i | 0 <= i < |user| ensures IsAddressChar(user[i]) { assert user[i] == s[i]; }
    }
    assert AllAddressChars(host) by {
      forall i | 0 <= i < |host| ensures IsAddressChar(host[i]) { assert host[i] == s[k + 1 + i]; }
    }
    assert AllAddressChars(top) by {
      forall i | 0 <= i < |top| ensures IsAddressChar(top[i]) { assert top[i] == s[j + 1 + i]; }
    }
  }

  /** The pattern accepts exactly the well-formed addresses. */
  lemma ValidateEmailIsWellFormed(s: string)
    ensures ValidateEmail(s) <==> WellFormedAddress(s)
  {
    if ValidateEmail(s) { ValidatedIsWellFormed(s); }
    if WellFormedAddress(s) { WellFormedIsValidated(s); }
  }

  /** What submitting does: reject with a message, or hand the address to the caller. */
  datatype Submission = Rejected(message: string) | Accepted(address: string)

  /** `handleSubmit`'s checks in order: an empty field first, then the format. */
  function CheckSubmission(email: string): (r: Submission)
    ensures email == "" ==> r == Rejected(EmptyMessage)
    ensures email != "" && !ValidateEmail(email) ==> r == Rejected(InvalidMessage)
    ensures r.Accepted? <==> ValidateEmail(email)
    ensures r.Accepted? ==> r.address == email
  {
    if email == "" then Rejected(EmptyMessage)
    else if !ValidateEmail(email) then Rejected(InvalidMessage)
    else Accepted(email)
  }

  /** An accepted address is exactly a well-formed one. */
  lemma AcceptedIffWellFormed(email: string)
    ensures CheckSubmission(email).Accepted? <==> WellFormedAddress(email)
  {
    ValidateEmailIsWellFormed(email);
  }

  class EmailForm {
    var email: string
    var error: string

    constructor ()
      ensures email == "" && error == ""
    {
      email := "";
      error := "";
    }

    /** Editing the field stores the new text and clears any error. */
    method Change(value: string)
      modifies this
      ensures email == value && error == ""
    {
      email := value;
      error := "";
    }

    /** Submitting: a rejected address sets the error and calls nothing; an accepted one
        is passed, unchanged and once, to the `onSubmit` callback (the result) and leaves
        the error as it was. The field itself never changes. */
    method Submit() returns (onSubmit: Option<string>)
      modifies this
      ensures email == old(email)
      ensures CheckSubmission(email).Rejected? ==>
        error == CheckSubmission(email).message && onSubmit == None
      ensures CheckSubmission(email).Accepted? ==>
        error == old(error) && onSubmit == Some(email)
    {
      if email == "" {
        error := EmptyMessage;
        return None;
      }
      if !ValidateEmail(email) {
        error := InvalidMessage;
        return None;
      }
      onSubmit := Some(email);
    }
  }
}
