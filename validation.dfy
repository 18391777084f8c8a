/** The form schemas of the storefront (login, registration, shipping address and
    payment). Each field's checks run in the order they are declared and every
    failed check yields an issue `(field, message)`; fields come in declaration
    order. A form is accepted when there is no issue. Each schema is then proved
    equal to an explicit description of the strings it accepts, and its regular
    expressions are matched by the regex model. */
module Validation {
  import opened Common
  import opened Text
  import opened RegexModel

  datatype Issue = Issue(path: string, message: string)

  /** The issue of one check: none when it passes. */
  function Check(passes: bool, path: string, message: string): (r: seq<Issue>)
    ensures r == [] <==> passes
    ensures forall i | i in r :: i == Issue(path, message)
    ensures !passes ==> |r| == 1 && r[0] == Issue(path, message)
  {
    if passes then [] else [Issue(path, message)]
  }

  /** Email syntax (`.email()`) is not interpreted: callers supply it. */
  type EmailSyntax = string -> bool

  /** `[!@#$%^&*(),.?":{}|<>]` */
  const SpecialChars := "!@#$%^&*(),.?\":{}|<>"

  /** `[a-zA-Z\s'-]` */
  const NameClass := Union(Range('a', 'z'), Union(Range('A', 'Z'), Union(Space, OneOf("'-"))))

  /** `^\d{5}(-\d{4})?$` */
  const ZipPattern := Cat(Rep(Digit, 5), Opt(Cat(Lit('-'), Rep(Digit, 4))))

  /** `^\d{10}$|^\d{3}-\d{3}-\d{4}$` */
  const PhonePattern :=
    Alt(Rep(Digit, 10), Cat(Rep(Digit, 3), Cat(Lit('-'), Cat(Rep(Digit, 3), Cat(Lit('-'), Rep(Digit, 4))))))

  /** `^\d{16}$` */
  const CardPattern := Rep(Digit, 16)

  /** `^(0[1-9]|1[0-2])\/\d{2}$` */
  const ExpiryPattern := Cat(MonthPattern, Cat(Lit('/'), Rep(Digit, 2)))

  /** `^\d{3,4}$` */
  const CvvPattern := Alt(Rep(Digit, 3), Rep(Digit, 4))

  // ---- the schemas, check by check ------------------------------------------------

  function EmailIssues(path: string, e: string, isEmail: EmailSyntax): (r: seq<Issue>)
    ensures forall i | i in r :: i.path == path
  {
    Check(|e| >= 1, path, "Email is required")
    + Check(isEmail(e), path, "Please enter a valid email address")
    + Check(|e| <= 255, path, "Email must be less than 255 characters")
  }

  function PasswordIssues(path: string, p: string): (r: seq<Issue>)
    ensures forall i | i in r :: i.path == path
  {
    Check(|p| >= 1, path, "Password is required")
    + Check(|p| >= 8, path, "Password must be at least 8 characters")
    + Check(|p| <= 128, path, "Password must be less than 128 characters")
    + Check(Occurs(Char(Range('A', 'Z')), p), path, "Password must contain at least one uppercase letter")
    + Check(Occurs(Char(Range('a', 'z')), p), path, "Password must contain at least one lowercase letter")
    + Check(Occurs(Char(Digit), p), path, "Password must contain at least one number")
    + Check(Occurs(Char(OneOf(SpecialChars)), p), path, "Password must contain at least one special character")
  }

  function NameIssues(path: string, n: string): (r: seq<Issue>)
    ensures forall i | i in r :: i.path == path
  {
    Check(|n| >= 1, path, "Name is required")
    + Check(|n| >= 2, path, "Name must be at least 2 characters")
    + Check(|n| <= 100, path, "Name must be less than 100 characters")
    + Check(Matches(Plus(Char(NameClass)), n), path, "Name can only contain letters, spaces, hyphens, and apostrophes")
  }

  /** A required text field with a maximum length. */
  function TextIssues(path: string, s: string, max: nat, required: string, tooLong: string): seq<Issue> {
    Check(|s| >= 1, path, required) + Check(|s| <= max, path, tooLong)
  }

  /** A required field with an anchored pattern. */
  function PatternIssues(path: string, s: string, re: Re, required: string, invalid: string): seq<Issue> {
    Check(|s| >= 1, path, required) + Check(Matches(re, s), path, invalid)
  }

  const MismatchIssue := Issue("confirmPassword", "Passwords do not match")

  predicate HasLoginFields(data: map<string, string>) { "email" in data && "password" in data }

  function LoginIssues(data: map<string, string>, isEmail: EmailSyntax): seq<Issue>
    requires HasLoginFields(data)
  {
    EmailIssues("email", data["email"], isEmail)
    + Check(|data["password"]| >= 1, "password", "Password is required")
  }

  predicate HasRegisterFields(data: map<string, string>) {
    "name" in data && "email" in data && "password" in data && "confirmPassword" in data
  }

  /** The fields' issues, then the refinement's, which runs even when a field failed. */
  function RegisterIssues(data: map<string, string>, isEmail: EmailSyntax): seq<Issue>
    requires HasRegisterFields(data)
  {
    NameIssues("name", data["name"])
    + EmailIssues("email", data["email"], isEmail)
    + PasswordIssues("password", data["password"])
    + Check(|data["confirmPassword"]| >= 1, "confirmPassword", "Please confirm your password")
    + Check(data["password"] == data["confirmPassword"], MismatchIssue.path, MismatchIssue.message)
  }

  predicate HasShippingFields(data: map<string, string>) {
    "firstName" in data && "lastName" in data && "address" in data && "city" in data
    && "state" in data && "zipCode" in data && "phone" in data
  }

  function ShippingIssues(data: map<string, string>): seq<Issue>
    requires HasShippingFields(data)
  {
    TextIssues("firstName", data["firstName"], 50, "First name is required", "First name must be less than 50 characters")
    + TextIssues("lastName", data["lastName"], 50, "Last name is required", "Last name must be less than 50 characters")
    + TextIssues("address", data["address"], 200, "Address is required", "Address must be less than 200 characters")
    + TextIssues("city", data["city"], 100, "City is required", "City must be less than 100 characters")
    + TextIssues("state", data["state"], 50, "State is required", "State must be less than 50 characters")
    + PatternIssues("zipCode", data["zipCode"], ZipPattern, "ZIP code is required",
                    "Please enter a valid ZIP code (e.g., 12345 or 12345-6789)")
    + PatternIssues("phone", data["phone"], PhonePattern, "Phone number is required", "Please enter a valid phone number")
  }

  predicate HasPaymentFields(data: map<string, string>) {
    "cardNumber" in data && "expiryDate" in data && "cvv" in data && "nameOnCard" in data
  }

  function PaymentIssues(data: map<string, string>): seq<Issue>
    requires HasPaymentFields(data)
  {
    PatternIssues("cardNumber", data["cardNumber"], CardPattern, "Card number is required",
                  "Please enter a valid 16-digit card number")
    + PatternIssues("expiryDate", data["expiryDate"], ExpiryPattern, "Expiry date is required",
                    "Please enter a valid expiry date (MM/YY)")
    + PatternIssues("cvv", data["cvv"], CvvPattern, "CVV is required", "Please enter a valid CVV")
    + TextIssues("nameOnCard", data["nameOnCard"], 100, "Name on card is required", "Name must be less than 100 characters")
  }

  // ---- what each schema accepts, stated directly ------------------------------------

  function DigitValue(c: char): int { c as int - '0' as int }

  predicate IsPassword(p: string) {
    && 8 <= |p| <= 128
    && (exists i :: 0 <= i < |p| && IsUpper(p[i]))
    && (exists i :: 0 <= i < |p| && IsLower(p[i]))
    && (exists i :: 0 <= i < |p| && IsDigit(p[i]))
    && (exists i :: 0 <= i < |p| && p[i] in SpecialChars)
  }

  predicate IsNameChar(c: char) { IsLetter(c) || IsWhitespace(c) || c == '\'' || c == '-' }

  predicate IsName(n: string) {
    2 <= |n| <= 100 && forall i :: 0 <= i < |n| ==> IsNameChar(n[i])
  }

  predicate IsEmail(e: string, isEmail: EmailSyntax) { 1 <= |e| <= 255 && isEmail(e) }

  predicate IsZipCode(s: string) {
    || (|s| == 5 && AllDigits(s))
    || (|s| == 10 && AllDigits(s[..5]) && s[5] == '-' && AllDigits(s[6..]))
  }

  predicate IsPhone(s: string) {
    || (|s| == 10 && AllDigits(s))
    || (|s| == 12 && AllDigits(s[..3]) && s[3] == '-' && AllDigits(s[4..7]) && s[7] == '-' && AllDigits(s[8..]))
  }

  predicate IsCardNumber(s: string) { |s| == 16 && AllDigits(s) }

  predicate IsCvv(s: string) { (|s| == 3 || |s| == 4) && AllDigits(s) }

  /** `MM/YY` with month `MM` between 01 and 12. */
  predicate IsExpiry(s: string) {
    && |s| == 5 && AllDigits(s[..2]) && s[2] == '/' && AllDigits(s[3..])
    && 1 <= 10 * DigitValue(s[0]) + DigitValue(s[1]) <= 12
  }

  // ---- the agreement lemmas ------------------------------------------------------

  /** `\d{n}` followed by `b` matches `s` exactly when `s` starts with `n` digits
      and `b` matches the rest. */
  lemma DigitsThen(n: nat, b: Re, s: string)
    ensures Matches(Cat(Rep(Digit, n), b), s) <==> n <= |s| && AllDigits(s[..n]) && Matches(b, s[n..])
  {
    RepFixed(Digit, n);
    CatFixed(Rep(Digit, n), b, s);
    if n <= |s| { RepMatches(Digit, n, s[..n]); }
  }

  /** The literal `c` followed by `b` matches `s` exactly when `s` starts with `c`
      and `b` matches the rest. */
  lemma LitThen(c: char, b: Re, s: string)
    ensures Matches(Cat(Lit(c), b), s) <==> 1 <= |s| && s[0] == c && Matches(b, s[1..])
  {
    CatFixed(Lit(c), b, s);
  }

  lemma ZipPatternAccepts(s: string)
    ensures Matches(ZipPattern, s) <==> IsZipCode(s)
  {
    DigitsThen(5, Opt(Cat(Lit('-'), Rep(Digit, 4))), s);
    if |s| >= 5 {
      var t := s[5..];
      LitThen('-', Rep(Digit, 4), t);
      if |t| >= 1 {
        RepMatches(Digit, 4, t[1..]);
        assert t[1..] == s[6..];
      }
      assert |s| == 5 ==> s[..5] == s;
    }
  }

  lemma PhonePatternAccepts(s: string)
    ensures Matches(PhonePattern, s) <==> IsPhone(s)
  {
    RepMatches(Digit, 10, s);
    DashedPhone(s);
  }

  lemma DashedPhone(s: string)
    ensures Matches(Cat(Rep(Digit, 3), Cat(Lit('-'), Cat(Rep(Digit, 3), Cat(Lit('-'), Rep(Digit, 4))))), s) <==>
            |s| == 12 && AllDigits(s[..3]) && s[3] == '-' && AllDigits(s[4..7]) && s[7] == '-' && AllDigits(s[8..])
  {
    DigitsThen(3, Cat(Lit('-'), Cat(Rep(Digit, 3), Cat(Lit('-'), Rep(Digit, 4)))), s);
    if |s| >= 3 {
      var s1 := s[3..];
      LitThen('-', Cat(Rep(Digit, 3), Cat(Lit('-'), Rep(Digit, 4))), s1);
      if |s1| >= 1 {
        var s2 := s1[1..];
        DigitsThen(3, Cat(Lit('-'), Rep(Digit, 4)), s2);
        if |s2| >= 3 {
          var s3 := s2[3..];
          LitThen('-', Rep(Digit, 4), s3);
          if |s3| >= 1 {
            RepMatches(Digit, 4, s3[1..]);
            assert s2[..3] == s[4..7];
            assert s3[1..] == s[8..];
            assert s3[0] == s[7] && s1[0] == s[3];
          }
        }
      }
    }
  }

  lemma CardPatternAccepts(s: string)
    ensures Matches(CardPattern, s) <==> IsCardNumber(s)
  {
    RepMatches(Digit, 16, s);
  }

  lemma CvvPatternAccepts(s: string)
    ensures Matches(CvvPattern, s) <==> IsCvv(s)
  {
    RepMatches(Digit, 3, s);
    RepMatches(Digit, 4, s);
  }

  lemma ExpiryPatternAccepts(s: string)
    ensures Matches(ExpiryPattern, s) <==> IsExpiry(s)
  {
    CatFixed(MonthPattern, Cat(Lit('/'), Rep(Digit, 2)), s);
    if |s| >= 2 {
      MonthMatches(s[..2]);
      SlashYear(s[2..]);
      if |s| >= 3 {
        assert s[2..][1..] == s[3..];
      }
    }
  }

  /** `0[1-9]|1[0-2]` */
  const MonthPattern := Alt(Cat(Lit('0'), Char(Range('1', '9'))), Cat(Lit('1'), Char(Range('0', '2'))))

  lemma MonthMatches(mm: string)
    requires |mm| == 2
    ensures Matches(MonthPattern, mm) <==> AllDigits(mm) && 1 <= 10 * DigitValue(mm[0]) + DigitValue(mm[1]) <= 12
  {
    LitThen('0', Char(Range('1', '9')), mm);
    LitThen('1', Char(Range('0', '2')), mm);
    assert mm[1..][0] == mm[1];
  }

  lemma SlashYear(t: string)
    ensures Matches(Cat(Lit('/'), Rep(Digit, 2)), t) <==> |t| == 3 && t[0] == '/' && AllDigits(t[1..])
  {
    LitThen('/', Rep(Digit, 2), t);
    if |t| >= 1 {
      RepMatches(Digit, 2, t[1..]);
    }
  }

  lemma PasswordAccepts(path: string, p: string)
    ensures PasswordIssues(path, p) == [] <==> IsPassword(p)
  {
    PasswordChecks(path, p);
    assert Occurs(Char(Range('A', 'Z')), p) <==> exists i :: 0 <= i < |p| && IsUpper(p[i]) by {
      CharOccurs(Range('A', 'Z'), p);
    }
    assert Occurs(Char(Range('a', 'z')), p) <==> exists i :: 0 <= i < |p| && IsLower(p[i]) by {
      CharOccurs(Range('a', 'z'), p);
    }
    assert Occurs(Char(Digit), p) <==> exists i :: 0 <= i < |p| && IsDigit(p[i]) by {
      CharOccurs(Digit, p);
    }
    assert Occurs(Char(OneOf(SpecialChars)), p) <==> exists i :: 0 <= i < |p| && p[i] in SpecialChars by {
      CharOccurs(OneOf(SpecialChars), p);
    }
  }

  lemma PasswordChecks(path: string, p: string)
    ensures PasswordIssues(path, p) == [] <==>
              && 8 <= |p| <= 128
              && Occurs(Char(Range('A', 'Z')), p) && Occurs(Char(Range('a', 'z')), p)
              && Occurs(Char(Digit), p) && Occurs(Char(OneOf(SpecialChars)), p)
  {
  }

  /** A name is accepted exactly when it has 2 to 100 characters, each a letter,
      whitespace, a hyphen or an apostrophe. */
  lemma NameAccepts(path: string, n: string)
    ensures NameIssues(path, n) == [] <==> IsName(n)
  {
    NameChecks(path, n);
    PlusCharMatches(NameClass, n);
    forall i | 0 <= i < |n| ensures InClass(NameClass, n[i]) <==> IsNameChar(n[i]) {
      NameClassChars(n[i]);
    }
    assert AllIn(NameClass, n) <==> forall i :: 0 <= i < |n| ==> IsNameChar(n[i]);
  }

  lemma NameChecks(path: string, n: string)
    ensures NameIssues(path, n) == [] <==> 2 <= |n| <= 100 && Matches(Plus(Char(NameClass)), n)
  {
  }

  lemma NameClassChars(c: char)
    ensures InClass(NameClass, c) <==> IsNameChar(c)
  {
    assert InClass(Union(Space, OneOf("'-")), c) <==> IsWhitespace(c) || c == '\'' || c == '-';
    assert InClass(Union(Range('A', 'Z'), Union(Space, OneOf("'-"))), c) <==> IsUpper(c) || IsWhitespace(c) || c == '\'' || c == '-';
  }

  /** A registration form is accepted exactly when the name and the password meet
      their rules, the email is non-empty, well formed and at most 255 characters,
      and the confirmation is non-empty and equal to the password. */
  lemma RegisterAccepts(data: map<string, string>, isEmail: EmailSyntax)
    requires HasRegisterFields(data)
    ensures RegisterIssues(data, isEmail) == [] <==>
            && IsName(data["name"]) && IsEmail(data["email"], isEmail) && IsPassword(data["password"])
            && |data["confirmPassword"]| >= 1 && data["password"] == data["confirmPassword"]
  {
    NameAccepts("name", data["name"]);
    PasswordAccepts("password", data["password"]);
    var n := NameIssues("name", data["name"]);
    var e := EmailIssues("email", data["email"], isEmail);
    var p := PasswordIssues("password", data["password"]);
    var c := Check(|data["confirmPassword"]| >= 1, "confirmPassword", "Please confirm your password");
    var m := Check(data["password"] == data["confirmPassword"], MismatchIssue.path, MismatchIssue.message);
    assert RegisterIssues(data, isEmail) == n + e + p + c + m;
    assert |n + e + p + c + m| == |n| + |e| + |p| + |c| + |m|;
    assert n == [] <==> IsName(data["name"]);
    assert e == [] <==> IsEmail(data["email"], isEmail);
    assert p == [] <==> IsPassword(data["password"]);
  }

  /** Different passwords always produce the mismatch issue on `confirmPassword`,
      whatever else is wrong with the form; equal ones never do. */
  lemma RegisterMismatch(data: map<string, string>, isEmail: EmailSyntax)
    requires HasRegisterFields(data)
    ensures MismatchIssue in RegisterIssues(data, isEmail) <==> data["password"] != data["confirmPassword"]
  {
    var n := NameIssues("name", data["name"]);
    var e := EmailIssues("email", data["email"], isEmail);
    var p := PasswordIssues("password", data["password"]);
    var c := Check(|data["confirmPassword"]| >= 1, "confirmPassword", "Please confirm your password");
    var m := Check(data["password"] == data["confirmPassword"], MismatchIssue.path, MismatchIssue.message);
    assert RegisterIssues(data, isEmail) == (n + e + p + c) + m;
    assert MismatchIssue !in c;
    assert MismatchIssue !in n + e + p + c;
  }

  /** A login form needs a valid email and any non-empty password. */
  lemma LoginAccepts(data: map<string, string>, isEmail: EmailSyntax)
    requires HasLoginFields(data)
    ensures LoginIssues(data, isEmail) == [] <==> IsEmail(data["email"], isEmail) && |data["password"]| >= 1
  {
  }

  predicate BoundedText(s: string, max: nat) { 1 <= |s| <= max }

  /** A shipping address is accepted exactly when its text fields are non-empty and
      within 50, 50, 200, 100 and 50 characters and the ZIP code and phone have
      one of their two accepted shapes. */
  lemma ShippingAccepts(data: map<string, string>)
    requires HasShippingFields(data)
    ensures ShippingIssues(data) == [] <==>
            && BoundedText(data["firstName"], 50) && BoundedText(data["lastName"], 50)
            && BoundedText(data["address"], 200) && BoundedText(data["city"], 100)
            && BoundedText(data["state"], 50)
            && IsZipCode(data["zipCode"]) && IsPhone(data["phone"])
  {
    ZipPatternAccepts(data["zipCode"]);
    PhonePatternAccepts(data["phone"]);
  }

  /** Card details are accepted exactly when the card number is 16 digits, the
      expiry is `MM/YY` with a month from 01 to 12, the CVV is 3 or 4 digits and
      the name on the card is non-empty and at most 100 characters. */
  lemma PaymentAccepts(data: map<string, string>)
    requires HasPaymentFields(data)
    ensures PaymentIssues(data) == [] <==>
            && IsCardNumber(data["cardNumber"]) && IsExpiry(data["expiryDate"])
            && IsCvv(data["cvv"]) && BoundedText(data["nameOnCard"], 100)
  {
    CardPatternAccepts(data["cardNumber"]);
    ExpiryPatternAccepts(data["expiryDate"]);
    CvvPatternAccepts(data["cvv"]);
  }
}
