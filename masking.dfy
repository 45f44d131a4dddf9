/**
 * Display masks for the five sensitive member fields. Each mask keeps a short
 * visible part of the value and replaces the rest with a fixed marker; an empty
 * value is shown as "***".
 *
 * Strings are sequences of characters; the source counts UTF-16 code units,
 * which agree with characters for every character of the Basic Multilingual Plane.
 */
module Masking {
  import opened Wrappers
  import opened Seqs
  import opened Permissions

  /** The first `n` characters, or the whole string when it is shorter (`s.slice(0, n)`). */
  function Prefix(s: string, n: nat): (r: string)
    ensures |r| == Min(n, |s|)
    ensures r <= s
  {
    s[..Min(n, |s|)]
  }

  // ---------------------------------------------------------------------------
  // Mobile and phone numbers
  // ---------------------------------------------------------------------------

  /** maskMobile: the first four and the last characters from index 7 on, with "***" between. */
  function MaskMobile(mobile: string): (r: string)
    ensures |mobile| < 10 ==> r == "***"
    ensures |mobile| >= 10 ==> |r| == |mobile| && r[..4] == mobile[..4] && r[4..7] == "***" && r[7..] == mobile[7..]
  {
    if mobile == "" || |mobile| < 10 then "***"
    else mobile[..4] + "***" + mobile[7..]
  }

  /** Numbers that differ only in positions 4 to 6 are masked alike: those digits never show. */
  lemma MaskMobileHidesMiddle(a: string, b: string)
    requires |a| == |b|
    requires |a| >= 10 ==> a[..4] == b[..4] && a[7..] == b[7..]
    ensures MaskMobile(a) == MaskMobile(b)
  {
  }

  /** The example of the source's documentation. */
  lemma MaskMobileExample()
    ensures MaskMobile("0912345678") == "0912***678"
  {
    assert "0912345678"[..4] == "0912";
    assert "0912345678"[7..] == "678";
  }

  /** maskPhone: the emergency contact's phone number is masked like a mobile number. */
  function MaskPhone(phone: string): (r: string)
    ensures r == MaskMobile(phone)
  {
    MaskMobile(phone)
  }

  // ---------------------------------------------------------------------------
  // Email addresses
  // ---------------------------------------------------------------------------

  /**
   * maskEmail: the local part and the domain are the first two pieces of
   * `email.split('@')`; without a non-empty domain the whole value is "***",
   * otherwise up to two characters of the local part, "****", '@' and the domain.
   */
  function MaskEmail(email: string): (r: string)
    ensures '@' !in email ==> r == "***"
  {
    if email == "" then "***"
    else
      var parts := Split(email, '@');
      if '@' !in email then
        SplitWithoutSeparator(email, '@');
        "***"
      else if parts[1] == "" then "***"
      else Prefix(parts[0], 2) + "****" + "@" + parts[1]
  }

  /** A string without the separator splits into itself alone. */
  lemma SplitWithoutSeparator(s: string, c: char)
    requires c !in s
    ensures Split(s, c) == [s]
  {
    assert IndexOf(s, c) == |s|;
  }

  /**
   * For a well-formed address `local@domain` with a non-empty domain the mask is
   * the first two characters of the local part, "****@" and the whole domain.
   */
  lemma MaskEmailWellFormed(local: string, domain: string)
    requires '@' !in local && '@' !in domain && domain != ""
    ensures MaskEmail(local + "@" + domain) == Prefix(local, 2) + "****@" + domain
  {
    var email := local + "@" + domain;
    assert email == Join([local, domain], '@');
    JoinSplit([local, domain], '@');
    assert '@' in email by { assert email[|local|] == '@'; }
  }

  /**
   * The local part and the domain are the first two pieces of the address:
   * whatever follows a second '@' is dropped, and an empty domain (as in
   * "a@" or "a@@b") masks the whole value.
   */
  lemma MaskEmailFirstTwoPieces(local: string, domain: string, rest: string)
    requires '@' !in local && '@' !in domain
    ensures MaskEmail(local + "@" + domain) == (if domain == "" then "***" else Prefix(local, 2) + "****@" + domain)
    ensures MaskEmail(local + "@" + domain + "@" + rest) == (if domain == "" then "***" else Prefix(local, 2) + "****@" + domain)
  {
    SplitWithoutSeparator(domain, '@');
    SplitFirstPiece(local, domain, '@');
    MaskEmailOfPieces(local + "@" + domain, local, domain);
    var two := local + "@" + domain + "@" + rest;
    assert two == local + ['@'] + (domain + ['@'] + rest);
    SplitFirstPiece(local, domain + ['@'] + rest, '@');
    SplitFirstPiece(domain, rest, '@');
    MaskEmailOfPieces(two, local, domain);
  }

  /** An address whose first two pieces are known masks by those two pieces. */
  lemma MaskEmailOfPieces(email: string, local: string, domain: string)
    requires |email| > |local| && email[|local|] == '@'
    requires |Split(email, '@')| >= 2 && Split(email, '@')[0] == local && Split(email, '@')[1] == domain
    ensures MaskEmail(email) == (if domain == "" then "***" else Prefix(local, 2) + "****@" + domain)
  {
    assert '@' in email;
  }

  /**
   * Every input, read with `indexOf`: an address with an '@' masks to up to two
   * characters before the first '@', "****@" and the text up to the next '@',
   * or to "***" when that text is empty.
   */
  lemma MaskEmailAllInputs(email: string)
    ensures '@' !in email ==> MaskEmail(email) == "***"
    ensures '@' in email ==>
      var i := IndexOf(email, '@');
      var after := email[i + 1..];
      var j := IndexOf(after, '@');
      MaskEmail(email) == (if j == 0 then "***" else Prefix(email[..i], 2) + "****@" + after[..j])
  {
    if '@' in email {
      CutAtFirst(email, '@');
      var i := IndexOf(email, '@');
      MaskEmailAfterCut(email, email[..i], email[i + 1..]);
    }
  }

  /** An address cut at its first '@' masks by the text up to the next '@'. */
  lemma MaskEmailAfterCut(email: string, local: string, after: string)
    requires '@' !in local && email == local + "@" + after
    ensures var j := IndexOf(after, '@');
      MaskEmail(email) == (if j == 0 then "***" else Prefix(local, 2) + "****@" + after[..j])
  {
    var j := IndexOf(after, '@');
    if j == |after| {
      assert after[..j] == after;
      MaskEmailFirstTwoPieces(local, after, "");
    } else {
      CutAtFirst(after, '@');
      var domain := after[..j];
      var rest := after[j + 1..];
      assert email == local + "@" + domain + "@" + rest;
      MaskEmailFirstTwoPieces(local, domain, rest);
    }
  }

  /** A second '@' cuts the domain short. */
  lemma MaskEmailSecondAtExample(local: string, domain: string, rest: string)
    requires local == "ab" && domain == "c" && rest == "d"
    ensures MaskEmail(local + "@" + domain + "@" + rest) == "ab****@c"
  {
    assert '@' !in local && '@' !in domain;
    MaskEmailFirstTwoPieces(local, domain, rest);
    assert Prefix(local, 2) == "ab";
    assert "ab" + "****@" + domain == "ab****@c";
  }

  /** Two '@' in a row leave an empty domain, and the whole value is masked. */
  lemma MaskEmailDoubleAtExample(local: string, rest: string)
    requires local == "a" && rest == "b"
    ensures MaskEmail(local + "@" + "" + "@" + rest) == "***"
  {
    assert '@' !in local;
    MaskEmailFirstTwoPieces(local, "", rest);
  }

  /** Addresses with the same domain and the same first two characters of the local part are masked alike. */
  lemma MaskEmailHidesLocalPart(local1: string, local2: string, domain: string)
    requires '@' !in local1 && '@' !in local2 && '@' !in domain && domain != ""
    requires Prefix(local1, 2) == Prefix(local2, 2)
    ensures MaskEmail(local1 + "@" + domain) == MaskEmail(local2 + "@" + domain)
  {
    MaskEmailWellFormed(local1, domain);
    MaskEmailWellFormed(local2, domain);
  }

  /** An address ending in '@' has an empty domain and is masked completely. */
  lemma MaskEmailEmptyDomain(local: string)
    requires '@' !in local
    ensures MaskEmail(local + "@") == "***"
  {
    assert local + "@" == Join([local, ""], '@');
    JoinSplit([local, ""], '@');
    assert (local + "@")[|local|] == '@';
  }

  /** The example of the source's documentation. */
  lemma MaskEmailExample(local: string, domain: string)
    requires local == "user" && domain == "example.com"
    ensures MaskEmail(local + "@" + domain) == "us****@example.com"
  {
    assert '@' !in local && '@' !in domain;
    MaskEmailWellFormed(local, domain);
    assert Prefix(local, 2) == "us";
    assert "us" + "****@" + domain == "us****@example.com";
  }

  // ---------------------------------------------------------------------------
  // LINE ids and addresses
  // ---------------------------------------------------------------------------

  /** maskLineId: up to two characters followed by "****". */
  function MaskLineId(lineId: string): (r: string)
    ensures lineId == "" ==> r == "***"
    ensures lineId != "" ==> |r| == Min(2, |lineId|) + 4 && r[..|r| - 4] <= lineId && r[|r| - 4..] == "****"
  {
    if lineId == "" then "***" else Prefix(lineId, 2) + "****"
  }

  /** LINE ids that agree on their first two characters are masked alike. */
  lemma MaskLineIdHidesRest(a: string, b: string)
    requires a != "" && b != ""
    requires Prefix(a, 2) == Prefix(b, 2)
    ensures MaskLineId(a) == MaskLineId(b)
  {
  }

  lemma MaskLineIdExample()
    ensures MaskLineId("my_line_id") == "my****"
  {
    assert Prefix("my_line_id", 2) == "my";
  }

  /** maskAddress: up to five characters followed by "...". */
  function MaskAddress(address: string): (r: string)
    ensures address == "" ==> r == "***"
    ensures address != "" ==> |r| == Min(5, |address|) + 3 && r[..|r| - 3] <= address && r[|r| - 3..] == "..."
  {
    if address == "" then "***" else Prefix(address, 5) + "..."
  }

  /** Addresses that agree on their first five characters are masked alike. */
  lemma MaskAddressHidesRest(a: string, b: string)
    requires a != "" && b != ""
    requires Prefix(a, 5) == Prefix(b, 5)
    ensures MaskAddress(a) == MaskAddress(b)
  {
  }

  /** The code keeps five characters, so the documented example loses its sixth character. */
  lemma MaskAddressExample()
    ensures MaskAddress("台北市信義區信義路五段7號") == "台北市信義..."
  {
    assert Prefix("台北市信義區信義路五段7號", 5) == "台北市信義";
  }

  // ---------------------------------------------------------------------------
  // Choosing the mask of a field
  // ---------------------------------------------------------------------------

  /** The mask of each sensitive field. */
  function MaskOf(f: SensitiveField): (mask: string -> string)
    ensures mask("") == "***"
  {
    match f
    case Mobile => MaskMobile
    case Email => MaskEmail
    case LineId => MaskLineId
    case Address => MaskAddress
    case EmergencyContactPhone => MaskPhone
  }

  /**
   * getMaskFunction: the mask of the sensitive field of that name, and the
   * identity for any other name.
   */
  function GetMaskFunction(field: string): (mask: string -> string)
    ensures IsSensitiveName(field) ==> forall v :: mask(v) == MaskOf(FieldFromName(field).value)(v)
    ensures !IsSensitiveName(field) ==> forall v :: mask(v) == v
  {
    match FieldFromName(field)
    case Some(f) => MaskOf(f)
    case None => (v: string) => v
  }

  /** The mask chosen by a field's own name is that field's mask, so an empty value shows as "***". */
  lemma GetMaskFunctionOfField(f: SensitiveField, v: string)
    ensures GetMaskFunction(FieldName(f))(v) == MaskOf(f)(v)
    ensures GetMaskFunction(FieldName(f))("") == "***"
  {
    FieldNameRoundTrip(f);
  }
}
