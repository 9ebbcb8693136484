/** The zod schemas of the three pages. A `safeParse` is modelled by the
    list of issues it reports, in the order zod runs the checks; the page
    shows `errors[0]?.message ?? fallback`. Both OTP pages declare the
    same email and OTP schemas and use this single definition. */
module Schemas {
  import opened Js

  const EmailMessage := "Enter a valid email"
  const EmailFallback := "Invalid email"

  const OtpDigits: nat := 6
  const OtpLengthMessage := "OTP must be 6 digits"
  const OtpNumericMessage := "OTP must be numeric"
  const OtpFallback := "Invalid OTP"

  const TitleMax: nat := 100
  const ContentMax: nat := 2000
  const TitleRequired := "Title is required"
  const TitleTooLong := "Max 100 chars"
  const ContentRequired := "Content is required"
  const ContentTooLong := "Max 2000 chars"
  const NoteFallback := "Invalid input"

  /** The message a page shows for a failed parse, or None for a successful one. */
  function Verdict(issues: seq<string>, fallback: string): Option<string> {
    if issues == [] then None
    else if |issues| > 0 then Some(issues[0])
    else Some(fallback)
  }

  // ----- email: z.string().email('Enter a valid email') -----

  /** zod's `.email()` test is a library regular expression outside this
      model; `isEmail` stands for it. */
  function EmailIssues(isEmail: string -> bool, email: string): seq<string> {
    if isEmail(email) then [] else [EmailMessage]
  }

  function CheckEmail(isEmail: string -> bool, email: string): (r: Option<string>)
    ensures r == None <==> isEmail(email)
    ensures r != None ==> r == Some(EmailMessage)
  {
    Verdict(EmailIssues(isEmail, email), EmailFallback)
  }

  // ----- OTP: z.string().min(6).max(6).regex(/^\d{6}$/g) -----

  /** `s` matches the anchored pattern `^\d{n}$`. Matching on UTF-16 code
      units gives the same answer, since no surrogate unit is a digit. The
      pattern's `g` flag makes `test` resume at `lastIndex`; zod sets it to
      0 before every regex check, so each match starts afresh, as here. */
  function MatchesDigits(s: string, n: nat): bool {
    if n == 0 then s == []
    else s != [] && IsDigit(s[0]) && MatchesDigits(s[1..], n - 1)
  }

  lemma {:induction false} MatchesDigitsIff(s: string, n: nat)
    ensures MatchesDigits(s, n) <==> |s| == n && AllDigits(s)
  {
    if n > 0 && s != [] {
      MatchesDigitsIff(s[1..], n - 1);
      if IsDigit(s[0]) && AllDigits(s[1..]) {
        forall i | 0 <= i < |s| ensures IsDigit(s[i]) {
          if i > 0 { assert s[i] == s[1..][i - 1]; }
        }
      }
      if AllDigits(s) {
        forall i | 0 <= i < |s[1..]| ensures IsDigit(s[1..][i]) {
          assert s[1..][i] == s[i + 1];
        }
      }
    }
  }

  /** The issues of the OTP schema, in check order: min, max, regex. */
  function OtpIssues(otp: string): seq<string> {
    (if Length(otp) < OtpDigits then [OtpLengthMessage] else [])
    + (if Length(otp) > OtpDigits then [OtpLengthMessage] else [])
    + (if MatchesDigits(otp, OtpDigits) then [] else [OtpNumericMessage])
  }

  /** The OTP passes exactly when it is six ASCII digits; a wrong length is
      reported before a non-digit, and the fallback is never shown. */
  function CheckOtp(otp: string): (r: Option<string>)
    ensures r == None <==> |otp| == OtpDigits && AllDigits(otp)
    ensures Length(otp) != OtpDigits ==> r == Some(OtpLengthMessage)
    ensures Length(otp) == OtpDigits && !AllDigits(otp) ==> r == Some(OtpNumericMessage)
  {
    MatchesDigitsIff(otp, OtpDigits);
    if AllDigits(otp) then
      assert InBmp(otp) by {
        forall i | 0 <= i < |otp| ensures otp[i] as int < 0x1_0000 {
          assert IsDigit(otp[i]);
        }
      }
      LengthInBmp(otp);
      Verdict(OtpIssues(otp), OtpFallback)
    else
      Verdict(OtpIssues(otp), OtpFallback)
  }

  // ----- note: z.object({ title: min(1).max(100), content: min(1).max(2000) }) -----

  function StringIssues(s: string, max: nat, required: string, tooLong: string): seq<string> {
    (if Length(s) < 1 then [required] else [])
    + (if Length(s) > max then [tooLong] else [])
  }

  /** zod parses the object's keys in shape order: title, then content. */
  function NoteIssues(title: string, content: string): seq<string> {
    StringIssues(title, TitleMax, TitleRequired, TitleTooLong)
    + StringIssues(content, ContentMax, ContentRequired, ContentTooLong)
  }

  /** A draft passes exactly when both lengths are in range; a title
      problem is reported before any content problem. */
  function CheckNote(title: string, content: string): (r: Option<string>)
    ensures r == None <==> 1 <= Length(title) <= TitleMax && 1 <= Length(content) <= ContentMax
    ensures title == "" ==> r == Some(TitleRequired)
    ensures Length(title) > TitleMax ==> r == Some(TitleTooLong)
    ensures 1 <= Length(title) <= TitleMax && content == "" ==> r == Some(ContentRequired)
    ensures 1 <= Length(title) <= TitleMax && Length(content) > ContentMax ==> r == Some(ContentTooLong)
  {
    Verdict(NoteIssues(title, content), NoteFallback)
  }
}
