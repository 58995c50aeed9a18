/** HotelService over an abstract hotel table: a map from id to hotel and a
    counter for new ids. Writes happen only after validation, so the table
    keeps two invariants: every stored hotel passes Bean Validation, and no
    two hotels share a phone number. */
module HotelStore {
  import opened Common
  import opened Hotels
  import opened HotelValidation

  const PHONE_CONFLICT := "That phone number is already used, please use a unique phone number"

  /** The ids of the hotels with exactly that name (HotelRepository.findByName). */
  function FindByName(hotels: map<int, Hotel>, name: string): set<int> {
    Matching(hotels, (h: Hotel) => h.name, name)
  }

  /** The table invariant. */
  ghost predicate TableInvariant(hotels: map<int, Hotel>, nextId: int) {
    (forall k :: k in hotels ==> hotels[k].id == Some(k) && k < nextId && HotelViolations(hotels[k]) == []) &&
    (forall j, k :: j in hotels && k in hotels && j != k ==> hotels[j].phoneNumber != hotels[k].phoneNumber)
  }

  /** In a consistent table at most one hotel has a given number, so the
      uniqueness query never raises NonUniqueResultException; and since every
      stored hotel has a number, comparing with the hotel's own stored number
      never dereferences null. The check therefore always answers. */
  lemma PhoneCheckNeverThrows(hotels: map<int, Hotel>, nextId: int, phone: string, id: Option<int>)
    requires TableInvariant(hotels, nextId)
    ensures |FindByPhoneNumber(hotels, phone)| <= 1
    ensures PhoneNumberAlreadyExists(hotels, phone, id).Ok?
  {
    var matches := FindByPhoneNumber(hotels, phone);
    forall j, k | j in matches && k in matches ensures j == k {
      assert hotels[j].phoneNumber == Some(phone) == hotels[k].phoneNumber;
    }
    AtMostOne(matches);
    if id.Some? && id.value in hotels {
      var own := id.value;
      assert HotelViolations(hotels[own]) == [];
    }
  }

  /** Storing a validated hotel under its own id, or under a new id when the
      number is free, keeps the invariant. */
  lemma {:induction false} StoreValidated(hotels: map<int, Hotel>, nextId: int, h: Hotel, key: int)
    requires TableInvariant(hotels, nextId)
    requires ValidateHotel(h, hotels).Pass?
    requires (key == nextId && !(h.id.Some? && h.id.value in hotels)) || (h.id == Some(key) && key in hotels)
    ensures TableInvariant(hotels[key := h.(id := Some(key))], if key == nextId then nextId + 1 else nextId)
  {
    ValidatedPhoneIsFree(h, hotels);
    var stored := h.(id := Some(key));
    var next := if key == nextId then nextId + 1 else nextId;
    var after := hotels[key := stored];
    assert HotelViolations(stored) == HotelViolations(h);
    forall j, k | j in after && k in after && j != k ensures after[j].phoneNumber != after[k].phoneNumber {
      if j == key {
        assert k in hotels && after[k] == hotels[k];
      } else if k == key {
        assert j in hotels && after[j] == hotels[j];
      } else {
        assert after[j] == hotels[j] && after[k] == hotels[k];
      }
    }
  }

  /** The catch clauses of createHotel: 201 with the stored hotel, 400 with one
      entry per violated path, 409 keyed "phoneNumber" for the uniqueness
      error, 400 keyed "error" otherwise. */
  function CreateHotelResponse(outcome: Result<Hotel>): (r: Response<Hotel>)
    ensures outcome.Ok? ==> r == Response(CREATED, Body(outcome.value))
    ensures outcome.Err? && outcome.error.ConstraintViolation? ==>
      r.status == BAD_REQUEST && r.entity.Fields? && r.entity.fields.Keys == Paths(outcome.error.violations)
    ensures outcome.Err? && outcome.error.Validation? ==> r == Response(CONFLICT, Fields(map["phoneNumber" := PHONE_CONFLICT]))
    ensures outcome.Err? && (outcome.error.Other? || outcome.error.WebApplication?) ==>
      r == Response(BAD_REQUEST, Fields(map["error" := Message(outcome.error)]))
  {
    match outcome
    case Ok(v) => Response(CREATED, Body(v))
    case Err(e) =>
      match e
      case ConstraintViolation(vs) =>
        ViolationFieldsKeys(vs);
        Response(BAD_REQUEST, Fields(ViolationFields(vs)))
      case Validation(_) => Response(CONFLICT, Fields(map["phoneNumber" := PHONE_CONFLICT]))
      case _ => Response(BAD_REQUEST, Fields(map["error" := Message(e)]))
  }

  class HotelService {
    var hotels: map<int, Hotel>
    var nextId: int

    ghost predicate Valid()
      reads this
    {
      TableInvariant(hotels, nextId)
    }

    constructor ()
      ensures Valid() && hotels == map[] && nextId == 1
    {
      hotels := map[];
      nextId := 1;
    }

    /** findById: the stored hotel with that id, or null. */
    function FindById(id: int): (r: Option<Hotel>)
      reads this
      ensures r.Some? <==> id in hotels
      ensures r.Some? ==> r.value == hotels[id]
    {
      if id in hotels then Some(hotels[id]) else None
    }

    /** findByFirstName: a single-result query on the name field. No match
        and several matches both escape as exceptions. */
    method FindByFirstName(name: string) returns (r: Result<Hotel>)
      ensures FindByName(hotels, name) == {} ==> r == Err(Other(NO_RESULT_MESSAGE))
      ensures |FindByName(hotels, name)| > 1 ==> r == Err(Other(NON_UNIQUE_MESSAGE))
      ensures r.Ok? <==> |FindByName(hotels, name)| == 1
      ensures r.Ok? ==> r.value in hotels.Values && r.value.name == Some(name)
    {
      r := SingleResult(hotels, FindByName(hotels, name));
    }

    /** create: validate, then persist with a fresh id. An invalid hotel is
        never written; a hotel that already has an id is refused by persist. */
    method Create(h: Hotel) returns (r: Result<Hotel>)
      requires Valid()
      modifies this
      ensures Valid()
      ensures ValidateHotel(h, old(hotels)).Fail? ==>
        r == Err(ValidateHotel(h, old(hotels)).error) && hotels == old(hotels) && nextId == old(nextId)
      ensures ValidateHotel(h, old(hotels)).Pass? && h.id.Some? ==>
        r == Err(Other(DETACHED_MESSAGE)) && hotels == old(hotels) && nextId == old(nextId)
      ensures ValidateHotel(h, old(hotels)).Pass? && h.id.None? ==>
        r == Ok(h.(id := Some(old(nextId)))) && hotels == old(hotels)[old(nextId) := r.value] && nextId == old(nextId) + 1
    {
      var v := ValidateHotel(h, hotels);
      if v.Fail? {
        r := Err(v.error);
        return;
      }
      if h.id.Some? {
        r := Err(Other(DETACHED_MESSAGE));
        return;
      }
      StoreValidated(hotels, nextId, h, nextId);
      var stored := h.(id := Some(nextId));
      hotels := hotels[nextId := stored];
      nextId := nextId + 1;
      r := Ok(stored);
    }

    /** update: validate, then merge. A stored id is overwritten; a hotel
        without an id, or with one that is not stored, is inserted as a copy
        under a fresh id. The argument itself is returned. */
    method Update(h: Hotel) returns (r: Result<Hotel>)
      requires Valid()
      modifies this
      ensures Valid()
      ensures ValidateHotel(h, old(hotels)).Fail? ==>
        r == Err(ValidateHotel(h, old(hotels)).error) && hotels == old(hotels) && nextId == old(nextId)
      ensures ValidateHotel(h, old(hotels)).Pass? && h.id.Some? && h.id.value in old(hotels) ==>
        r == Ok(h) && hotels == old(hotels)[h.id.value := h] && nextId == old(nextId)
      ensures ValidateHotel(h, old(hotels)).Pass? && !(h.id.Some? && h.id.value in old(hotels)) ==>
        r == Ok(h) && hotels == old(hotels)[old(nextId) := h.(id := Some(old(nextId)))] && nextId == old(nextId) + 1
    {
      var v := ValidateHotel(h, hotels);
      if v.Fail? {
        r := Err(v.error);
        return;
      }
      if h.id.Some? && h.id.value in hotels {
        StoreValidated(hotels, nextId, h, h.id.value);
        assert h.(id := Some(h.id.value)) == h;
        hotels := hotels[h.id.value := h];
      } else {
        StoreValidated(hotels, nextId, h, nextId);
        hotels := hotels[nextId := h.(id := Some(nextId))];
        nextId := nextId + 1;
      }
      r := Ok(h);
    }
  }

  /** Registering a second hotel with a taken phone number yields 409 with
      exactly one entry. */
  lemma DuplicatePhoneConflict(h: Hotel, hotels: map<int, Hotel>, k: int)
    requires HotelViolations(h) == [] && h.id.None?
    requires k in hotels && hotels[k].phoneNumber == h.phoneNumber
    requires forall j :: j in hotels && j != k ==> hotels[j].phoneNumber != h.phoneNumber
    ensures ValidateHotel(h, hotels).Fail?
    ensures var r := CreateHotelResponse(Err(ValidateHotel(h, hotels).error));
      r.status == CONFLICT && |r.entity.fields| == 1
  {
    DuplicatePhoneRefused(h, hotels, k);
  }

  /** In a consistent table, a valid hotel that keeps its own stored number
      passes validation, so updating a hotel never clashes with itself. */
  lemma OwnPhoneAccepted(h: Hotel, hotels: map<int, Hotel>, nextId: int, k: int)
    requires TableInvariant(hotels, nextId)
    requires HotelViolations(h) == [] && h.id == Some(k)
    requires k in hotels && hotels[k].phoneNumber == h.phoneNumber
    ensures ValidateHotel(h, hotels) == Pass
  {
    var matches := FindByPhoneNumber(hotels, h.phoneNumber.value);
    forall j | j in matches ensures j == k {
      assert j in hotels && hotels[j].phoneNumber == hotels[k].phoneNumber;
    }
    assert matches == {k};
  }
}
