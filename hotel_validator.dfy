/** HotelValidator: Bean Validation first, then phone-number uniqueness,
    with the hotel being updated exempt from clashing with itself. */
module HotelValidation {
  import opened Common
  import opened Hotels

  const UNIQUE_PHONE_MESSAGE := "Unique Phone Number Violation"

  /** FIND_BY_PHONE_NUMBER: the ids of the hotels with exactly that number. */
  function FindByPhoneNumber(hotels: map<int, Hotel>, phone: string): set<int> {
    Matching(hotels, (h: Hotel) => h.phoneNumber, phone)
  }

  /** phoneNumberAlreadyExists: some hotel has the number, unless the stored
      hotel with the given id has it itself. Comparing with that hotel's
      number dereferences it, so a stored hotel without a number raises a
      NullPointerException. */
  function PhoneNumberAlreadyExists(hotels: map<int, Hotel>, phone: string, id: Option<int>): (r: Result<bool>)
    ensures FindByPhoneNumber(hotels, phone) == {} ==> r == Ok(false)
    ensures |FindByPhoneNumber(hotels, phone)| == 1 && id.None? ==> r == Ok(true)
    ensures |FindByPhoneNumber(hotels, phone)| == 1 && id.Some? && id.value in hotels && hotels[id.value].phoneNumber.None? ==>
      r == Err(Other(NULL_POINTER_MESSAGE))
    ensures |FindByPhoneNumber(hotels, phone)| == 1 && id.Some? && !(id.value in hotels && hotels[id.value].phoneNumber.None?) ==>
      r == Ok(!(id.value in hotels && hotels[id.value].phoneNumber == Some(phone)))
    ensures |FindByPhoneNumber(hotels, phone)| > 1 ==> r == Err(Other(NON_UNIQUE_MESSAGE))
  {
    match SingleMatch(FindByPhoneNumber(hotels, phone))
    case Err(e) => Err(e)
    case Ok(found) =>
      if found && id.Some? && id.value in hotels && hotels[id.value].phoneNumber.None? then Err(Other(NULL_POINTER_MESSAGE))
      else
        var self := id.Some? && id.value in hotels && hotels[id.value].phoneNumber == Some(phone);
        Ok(found && !self)
  }

  /** validateHotel: bean violations are reported before uniqueness is
      looked at; a clashing number raises a ValidationException. */
  function ValidateHotel(h: Hotel, hotels: map<int, Hotel>): (r: Outcome)
    ensures HotelViolations(h) != [] ==> r == Fail(ConstraintViolation(HotelViolations(h)))
    ensures HotelViolations(h) == [] ==>
      (r.Pass? <==> PhoneNumberAlreadyExists(hotels, h.phoneNumber.value, h.id) == Ok(false))
    ensures HotelViolations(h) == [] && PhoneNumberAlreadyExists(hotels, h.phoneNumber.value, h.id) == Ok(true) ==>
      r == Fail(Validation(UNIQUE_PHONE_MESSAGE))
    ensures HotelViolations(h) == [] && PhoneNumberAlreadyExists(hotels, h.phoneNumber.value, h.id).Err? ==>
      r == Fail(PhoneNumberAlreadyExists(hotels, h.phoneNumber.value, h.id).error)
  {
    var vs := HotelViolations(h);
    if vs != [] then Fail(ConstraintViolation(vs))
    else
      match PhoneNumberAlreadyExists(hotels, h.phoneNumber.value, h.id)
      case Err(e) => Fail(e)
      case Ok(clash) => if clash then Fail(Validation(UNIQUE_PHONE_MESSAGE)) else Pass
  }

  /** A hotel that passes validation shares its phone number with no stored
      hotel other than the one with its own id. */
  lemma {:induction false} ValidatedPhoneIsFree(h: Hotel, hotels: map<int, Hotel>)
    requires ValidateHotel(h, hotels).Pass?
    ensures h.phoneNumber.Some?
    ensures forall k :: k in hotels && hotels[k].phoneNumber == h.phoneNumber ==> h.id == Some(k)
  {
    var phone := h.phoneNumber.value;
    var matches := FindByPhoneNumber(hotels, phone);
    forall k | k in hotels && hotels[k].phoneNumber == h.phoneNumber ensures h.id == Some(k) {
      assert k in matches;
      assert |matches| == 1;
      var id := h.id.value;
      assert id in hotels && hotels[id].phoneNumber == Some(phone);
      SingletonMembers(matches, k, id);
    }
  }

  /** A new hotel (no id) whose number is taken is refused with the
      uniqueness error, once its fields are valid. */
  lemma DuplicatePhoneRefused(h: Hotel, hotels: map<int, Hotel>, k: int)
    requires HotelViolations(h) == [] && h.id.None?
    requires k in hotels && hotels[k].phoneNumber == h.phoneNumber
    requires forall j :: j in hotels && j != k ==> hotels[j].phoneNumber != h.phoneNumber
    ensures ValidateHotel(h, hotels) == Fail(Validation(UNIQUE_PHONE_MESSAGE))
  {
    var matches := FindByPhoneNumber(hotels, h.phoneNumber.value);
    forall j | j in matches ensures j == k {
      assert j in hotels && hotels[j].phoneNumber == h.phoneNumber;
    }
    assert matches == {k};
  }
}
