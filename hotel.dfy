/** The hotel entity and its Bean Validation constraints: a name, a
    postcode and a phone number, each a nullable string; phone numbers are
    unique across hotels and hotels are listed by name. */
module Hotels {
  import opened Common

  datatype Hotel = Hotel(id: Option<int>, name: Option<string>, postcode: Option<string>, phoneNumber: Option<string>)

  const NAME_MESSAGE := "Please use a name without numbers or specials"
  const POSTCODE_MESSAGE := "Please enter a valid postcode/ZIP using uppercase letters, numbers, spaces and hyphens as appropriate"
  const PHONE_MESSAGE := ""

  /** The default message of @Size(min, max). */
  function SizeMessage(min: int, max: int): string {
    if min == 1 && max == 50 then "size must be between 1 and 50"
    else if min == 1 && max == 10 then "size must be between 1 and 10"
    else "size must be between the bounds"
  }

  predicate IsDigit(c: char) {
    '0' <= c <= '9'
  }

  predicate IsUpper(c: char) {
    'A' <= c <= 'Z'
  }

  /** One character of the class `[A-Za-z -']`: letters and the range from
      space to apostrophe, which is space, !, ", #, $, %, & and '. The hyphen
      is a range operator there, not a member. */
  predicate NameChar(c: char) {
    IsUpper(c) || 'a' <= c <= 'z' || ' ' <= c <= '\''
  }

  /** `[A-Za-z -']+`, matched against the whole name. */
  predicate NamePattern(s: string) {
    |s| >= 1 && forall i :: 0 <= i < |s| ==> NameChar(s[i])
  }

  /** `([0-9-]+)|([A-Z0-9 ]+)`, matched against the whole postcode: digits
      and hyphens only, or uppercase letters, digits and spaces only. */
  predicate PostcodePattern(s: string) {
    |s| >= 1 &&
    ((forall i :: 0 <= i < |s| ==> IsDigit(s[i]) || s[i] == '-') ||
     (forall i :: 0 <= i < |s| ==> IsUpper(s[i]) || IsDigit(s[i]) || s[i] == ' '))
  }

  /** `^0[0-9]{10}$`: a zero followed by exactly ten digits. */
  predicate PhonePattern(s: string) {
    |s| == 11 && s[0] == '0' && forall i :: 1 <= i < |s| ==> IsDigit(s[i])
  }

  /** The violations of one nullable string field with @NotNull, @Size and
      @Pattern, in that order; a null value only breaks @NotNull. */
  function FieldViolations(path: string, value: Option<string>, hasSize: bool, min: int, max: int,
                           pattern: bool, message: string): (vs: seq<Violation>)
    ensures forall i :: 0 <= i < |vs| ==> vs[i].path == path
    ensures vs == [] <==> value.Some? && (!hasSize || min <= |value.value| <= max) && pattern
  {
    if value.None? then [Violation(path, NOT_NULL_MESSAGE)]
    else
      (if hasSize && !(min <= |value.value| <= max) then [Violation(path, SizeMessage(min, max))] else []) +
      (if !pattern then [Violation(path, message)] else [])
  }

  predicate ValidName(name: Option<string>) {
    name.Some? && 1 <= |name.value| <= 50 && NamePattern(name.value)
  }

  predicate ValidPostcode(postcode: Option<string>) {
    postcode.Some? && 1 <= |postcode.value| <= 10 && PostcodePattern(postcode.value)
  }

  predicate ValidPhone(phone: Option<string>) {
    phone.Some? && PhonePattern(phone.value)
  }

  /** Bean Validation of a hotel: name, postcode and phone-number
      violations, each reported under its own property path. */
  function HotelViolations(h: Hotel): (vs: seq<Violation>)
    ensures vs == [] <==> ValidName(h.name) && ValidPostcode(h.postcode) && ValidPhone(h.phoneNumber)
    ensures forall i :: 0 <= i < |vs| ==> vs[i].path in {"name", "postcode", "phoneNumber"}
  {
    var n := FieldViolations("name", h.name, true, 1, 50, h.name.Some? && NamePattern(h.name.value), NAME_MESSAGE);
    var p := FieldViolations("postcode", h.postcode, true, 1, 10, h.postcode.Some? && PostcodePattern(h.postcode.value), POSTCODE_MESSAGE);
    var t := FieldViolations("phoneNumber", h.phoneNumber, false, 0, 0, h.phoneNumber.Some? && PhonePattern(h.phoneNumber.value), PHONE_MESSAGE);
    assert forall i :: 0 <= i < |n + p| ==> (n + p)[i].path in {"name", "postcode"} by {
      forall i | 0 <= i < |n + p| ensures (n + p)[i].path in {"name", "postcode"} {
        if i < |n| { assert (n + p)[i] == n[i]; } else { assert (n + p)[i] == p[i - |n|]; }
      }
    }
    n + p + t
  }

  /** The paths of two violation lists together. */
  lemma PathsConcat(a: seq<Violation>, b: seq<Violation>)
    ensures Paths(a + b) == Paths(a) + Paths(b)
  {
    var ab := a + b;
    forall q | q in Paths(ab) ensures q in Paths(a) + Paths(b) {
      var i :| 0 <= i < |ab| && ab[i].path == q;
      if i < |a| { assert ab[i] == a[i]; } else { assert ab[i] == b[i - |a|]; }
    }
    forall q | q in Paths(a) ensures q in Paths(ab) {
      var i :| 0 <= i < |a| && a[i].path == q;
      assert ab[i] == a[i];
    }
    forall q | q in Paths(b) ensures q in Paths(ab) {
      var i :| 0 <= i < |b| && b[i].path == q;
      assert ab[|a| + i] == b[i];
    }
  }

  /** One field reports its own path, or nothing when it is valid. */
  lemma FieldPaths(path: string, value: Option<string>, hasSize: bool, min: int, max: int, pattern: bool, message: string)
    ensures var vs := FieldViolations(path, value, hasSize, min, max, pattern, message);
      Paths(vs) == if vs == [] then {} else {path}
  {
    var vs := FieldViolations(path, value, hasSize, min, max, pattern, message);
    if vs != [] {
      assert vs[0].path == path;
    }
  }

  /** A path appears among the violations exactly when that field is invalid. */
  lemma {:induction false} ViolationPathsExact(h: Hotel)
    ensures "name" in Paths(HotelViolations(h)) <==> !ValidName(h.name)
    ensures "postcode" in Paths(HotelViolations(h)) <==> !ValidPostcode(h.postcode)
    ensures "phoneNumber" in Paths(HotelViolations(h)) <==> !ValidPhone(h.phoneNumber)
  {
    var n := FieldViolations("name", h.name, true, 1, 50, h.name.Some? && NamePattern(h.name.value), NAME_MESSAGE);
    var p := FieldViolations("postcode", h.postcode, true, 1, 10, h.postcode.Some? && PostcodePattern(h.postcode.value), POSTCODE_MESSAGE);
    var t := FieldViolations("phoneNumber", h.phoneNumber, false, 0, 0, h.phoneNumber.Some? && PhonePattern(h.phoneNumber.value), PHONE_MESSAGE);
    assert Paths(HotelViolations(h)) == Paths(n) + Paths(p) + Paths(t) by {
      assert HotelViolations(h) == n + p + t;
      PathsConcat(n + p, t);
      PathsConcat(n, p);
    }
    assert Paths(n) == if ValidName(h.name) then {} else {"name"} by {
      FieldPaths("name", h.name, true, 1, 50, h.name.Some? && NamePattern(h.name.value), NAME_MESSAGE);
    }
    assert Paths(p) == if ValidPostcode(h.postcode) then {} else {"postcode"} by {
      FieldPaths("postcode", h.postcode, true, 1, 10, h.postcode.Some? && PostcodePattern(h.postcode.value), POSTCODE_MESSAGE);
    }
    assert Paths(t) == if ValidPhone(h.phoneNumber) then {} else {"phoneNumber"} by {
      FieldPaths("phoneNumber", h.phoneNumber, false, 0, 0, h.phoneNumber.Some? && PhonePattern(h.phoneNumber.value), PHONE_MESSAGE);
    }
  }

  /** The hotel the registration test accepts. */
  lemma GoodHotelAccepted()
    ensures HotelViolations(Hotel(None, Some("Good Hotel"), Some("A00 0AA"), Some("01910001234"))) == []
  {
    var name, postcode, phone := "Good Hotel", "A00 0AA", "01910001234";
    assert forall i :: 0 <= i < |name| ==> NameChar(name[i]);
    assert forall i :: 0 <= i < |postcode| ==> IsUpper(postcode[i]) || IsDigit(postcode[i]) || postcode[i] == ' ';
    assert forall i :: 1 <= i < |phone| ==> IsDigit(phone[i]);
  }

  /** A 55-character name breaks @Size. */
  lemma LongNameRejected()
    ensures !ValidName(Some("Good Hotel By The Sea With Loads Of Letters In The Name"))
  {
  }

  /** Thirteen digits, or letters among the digits, break the phone pattern. */
  lemma BadPhonesRejected()
    ensures !ValidPhone(Some("0191040123411"))
    ensures !ValidPhone(Some("01910ABC234"))
  {
    assert !IsDigit("01910ABC234"[5]);
  }

  /** An ampersand fits neither postcode alternative. */
  lemma AmpersandPostcodeRejected()
    ensures !ValidPostcode(Some("A0& 0AA"))
  {
    var s := "A0& 0AA";
    assert !(IsDigit(s[0]) || s[0] == '-');
    assert !(IsUpper(s[2]) || IsDigit(s[2]) || s[2] == ' ');
  }

  /** Because ` -'` is a range, a hyphenated name is rejected while names
      with `!` or `&` pass. */
  lemma NameRangeQuirk()
    ensures !ValidName(Some("Holiday-Inn"))
    ensures ValidName(Some("Bed & Breakfast!"))
  {
    assert !NameChar("Holiday-Inn"[7]);
    var s := "Bed & Breakfast!";
    assert forall i :: 0 <= i < |s| ==> NameChar(s[i]);
  }

  /** Order of strings by character code, as ORDER BY compares names. */
  predicate StringLe(a: string, b: string) {
    if a == [] then true
    else if b == [] then false
    else if a[0] != b[0] then a[0] < b[0]
    else StringLe(a[1..], b[1..])
  }

  lemma {:induction false} StringLeTotal(a: string, b: string)
    ensures StringLe(a, b) || StringLe(b, a)
  {
    if a != [] && b != [] && a[0] == b[0] {
      StringLeTotal(a[1..], b[1..]);
    }
  }

  lemma {:induction false} StringLeTransitive(a: string, b: string, c: string)
    requires StringLe(a, b) && StringLe(b, c)
    ensures StringLe(a, c)
  {
    if a != [] && b != [] && c != [] && a[0] == b[0] && b[0] == c[0] {
      StringLeTransitive(a[1..], b[1..], c[1..]);
    }
  }

  lemma {:induction false} StringLeAntisymmetric(a: string, b: string)
    requires StringLe(a, b) && StringLe(b, a)
    ensures a == b
  {
    if a != [] && b != [] {
      StringLeAntisymmetric(a[1..], b[1..]);
      assert a == [a[0]] + a[1..] && b == [b[0]] + b[1..];
    }
  }

  /** The name FIND_ALL sorts on; stored hotels always have one. */
  function NameKey(h: Hotel): string {
    if h.name.Some? then h.name.value else ""
  }

  /** FIND_ALL order: ascending by name. */
  predicate OrderedByName(hs: seq<Hotel>) {
    forall i, j :: 0 <= i < j < |hs| ==> StringLe(NameKey(hs[i]), NameKey(hs[j]))
  }

  /** Each name at most its successor orders the whole listing by name. */
  lemma {:induction false} AdjacentOrderSuffices(hs: seq<Hotel>)
    requires forall i :: 0 < i < |hs| ==> StringLe(NameKey(hs[i - 1]), NameKey(hs[i]))
    ensures OrderedByName(hs)
  {
    if |hs| > 1 {
      var tail := hs[1..];
      assert forall i :: 0 < i < |tail| ==> tail[i - 1] == hs[i] && tail[i] == hs[i + 1];
      AdjacentOrderSuffices(tail);
      forall j | 1 < j < |hs| ensures StringLe(NameKey(hs[0]), NameKey(hs[j])) {
        assert tail[0] == hs[1] && tail[j - 1] == hs[j];
        StringLeTransitive(NameKey(hs[0]), NameKey(hs[1]), NameKey(hs[j]));
      }
      forall i, j | 0 <= i < j < |hs| ensures StringLe(NameKey(hs[i]), NameKey(hs[j])) {
        if i > 0 { assert tail[i - 1] == hs[i] && tail[j - 1] == hs[j]; }
      }
    }
  }
}
