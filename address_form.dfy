// The address editor (components/AddressForm.tsx): the postal-code input
// sanitiser, the blank-query guard of the map search, the ordered checks of
// `handleSubmit` and the record it saves. The Leaflet map and the geocoder
// are outside the model; a marker position arrives as a `Location` value.
module AddressForm {
  import opened Types
  import opened Prices

  // ---------------------------------------------------------------------------
  // The postal-code input

  /** The digits of `raw` up to the tenth: `raw.replace(/\D/g, '').slice(0, 10)`. */
  function SanitizePostal(raw: string): (code: string)
    ensures |code| <= 10
    ensures forall i :: 0 <= i < |code| ==> IsAsciiDigit(code[i])
    ensures code <= KeepAsciiDigits(raw)
    ensures |code| == if |KeepAsciiDigits(raw)| <= 10 then |KeepAsciiDigits(raw)| else 10
  {
    RegexClassesAgree(raw);
    var digits := RemoveNonDigits(raw);
    if |digits| <= 10 then digits else digits[..10]
  }

  lemma {:induction false} KeepAppend(a: string, b: string)
    ensures KeepAsciiDigits(a + b) == KeepAsciiDigits(a) + KeepAsciiDigits(b)
  {
    if a != [] {
      KeepAppend(a[1..], b);
      assert (a + b)[0] == a[0] && (a + b)[1..] == a[1..] + b;
    } else {
      assert a + b == b;
    }
  }

  lemma {:induction false} KeepDigitsOnly(s: string)
    requires forall i :: 0 <= i < |s| ==> IsAsciiDigit(s[i])
    ensures KeepAsciiDigits(s) == s
  {
    if s != [] {
      KeepDigitsOnly(s[1..]);
      assert [s[0]] + s[1..] == s;
    }
  }

  /** Text without ASCII digits, Persian digits included, sanitises to the empty code. */
  lemma {:induction false} NoAsciiDigitsGivesEmpty(raw: string)
    requires forall i :: 0 <= i < |raw| ==> !IsAsciiDigit(raw[i])
    ensures SanitizePostal(raw) == ""
  {
    if raw != [] {
      NoAsciiDigitsGivesEmpty(raw[1..]);
      assert KeepAsciiDigits(raw) == KeepAsciiDigits(raw[1..]);
    }
  }

  /** Sanitising an already sanitised code changes nothing. */
  lemma SanitizeIdempotent(raw: string)
    ensures SanitizePostal(SanitizePostal(raw)) == SanitizePostal(raw)
  {
    KeepDigitsOnly(SanitizePostal(raw));
  }

  /**
   * Typing one more character: an ASCII digit is appended while the code is
   * shorter than ten; anything else, a Persian digit included, is dropped.
   */
  lemma TypeOneCharacter(raw: string, c: char)
    ensures SanitizePostal(raw + [c]) ==
      if IsAsciiDigit(c) && |SanitizePostal(raw)| < 10 then SanitizePostal(raw) + [c] else SanitizePostal(raw)
  {
    KeepAppend(raw, [c]);
    assert KeepAsciiDigits([c]) == if IsAsciiDigit(c) then [c] else [];
    var before := KeepAsciiDigits(raw);
    var after := KeepAsciiDigits(raw + [c]);
    if |before| >= 10 {
      assert after[..10] == before[..10];
    }
  }

  /** `/^\d{10}$/.test(code)`. */
  predicate IsTenDigits(code: string)
  {
    |code| == 10 && forall i :: 0 <= i < |code| ==> IsRegexDigit(code[i])
  }

  /** A typed code passes the format check exactly when the input held at least ten ASCII digits. */
  lemma SanitizedPassesIff(raw: string)
    ensures IsTenDigits(SanitizePostal(raw)) <==> |KeepAsciiDigits(raw)| >= 10
  {
    DigitTables();
    var code := SanitizePostal(raw);
    assert forall i :: 0 <= i < |code| ==> IsRegexDigit(code[i]) by {
      forall i | 0 <= i < |code| ensures IsRegexDigit(code[i]) {
        assert IsAsciiDigit(code[i]);
      }
    }
  }

  // ---------------------------------------------------------------------------
  // The map search

  /** What `String.prototype.trim` removes: white space and line terminators. */
  predicate IsJsSpace(c: char)
  {
    c == '\t' || c == '\n' || c == '\U{000B}' || c == '\U{000C}' || c == '\r' || c == ' ' ||
    c == '\U{00A0}' || c == '\U{1680}' || ('\U{2000}' <= c <= '\U{200A}') ||
    c == '\U{2028}' || c == '\U{2029}' || c == '\U{202F}' || c == '\U{205F}' ||
    c == '\U{3000}' || c == '\U{FEFF}'
  }

  /** Drops the leading white space. */
  function TrimStart(s: string): (r: string)
    ensures |r| <= |s| && r == s[|s| - |r|..]
    ensures r == [] || !IsJsSpace(r[0])
    ensures forall i :: 0 <= i < |s| - |r| ==> IsJsSpace(s[i])
  {
    if s == [] || !IsJsSpace(s[0]) then s else TrimStart(s[1..])
  }

  /** Drops the trailing white space. */
  function TrimEnd(s: string): (r: string)
    ensures |r| <= |s| && r == s[..|r|]
    ensures r == [] || !IsJsSpace(r[|r| - 1])
    ensures forall i :: |r| <= i < |s| ==> IsJsSpace(s[i])
  {
    if s == [] || !IsJsSpace(s[|s| - 1]) then s else TrimEnd(s[..|s| - 1])
  }

  /** `s.trim()`. */
  function Trim(s: string): string
  {
    TrimEnd(TrimStart(s))
  }

  /** `!searchQuery.trim()`: the query is empty after trimming. */
  predicate IsBlank(query: string)
  {
    Trim(query) == []
  }

  /** A query is blank exactly when every character of it is white space. */
  lemma BlankIffAllSpace(query: string)
    ensures IsBlank(query) <==> forall i :: 0 <= i < |query| ==> IsJsSpace(query[i])
  {
    var t := TrimStart(query);
    if t != [] {
      assert TrimEnd(t) != [] by {
        assert !IsJsSpace(t[0]);
      }
      assert query[|query| - |t|] == t[0];
    }
  }

  // ---------------------------------------------------------------------------
  // Submitting

  /** A marker position as the map reports it; never computed on. */
  datatype Location = Location(lat: real, lng: real)

  /** Where the map starts when there is no address to edit. */
  const MapCentre: Location := Location(35.6892, 51.3890)

  /** The province every saved address gets, and the city field's default. */
  const Tehran: string := "تهران"

  /** The form's fields as `handleSubmit` reads them. */
  datatype Fields = Fields(
    title: string,
    city: string,
    fullAddress: string,
    postalCode: string,
    location: Location,
    locationSelected: bool)

  /** The alert `handleSubmit` stops at, or the record it hands to `onSave`. */
  datatype SubmitOutcome = MissingFields | BadPostalCode | NoLocation | Saved(address: Address)

  /** `initialAddress?.id || <random id>`: the edited address's id unless it is absent or empty. */
  function SavedId(initial: Option<Address>, freshId: string): (id: string)
    ensures initial.Some? && initial.value.id != "" ==> id == initial.value.id
    ensures initial.None? || initial.value.id == "" ==> id == freshId
  {
    if initial.Some? && initial.value.id != "" then initial.value.id else freshId
  }

  /**
   * `handleSubmit`: the three checks in order, each reached only when the
   * ones before it pass, and the record saved when all of them do.
   */
  function Submit(f: Fields, initial: Option<Address>, freshId: string): (out: SubmitOutcome)
    ensures out == MissingFields <==> f.title == "" || f.fullAddress == "" || f.postalCode == ""
    ensures out == BadPostalCode <==>
      f.title != "" && f.fullAddress != "" && f.postalCode != "" && !IsTenDigits(f.postalCode)
    ensures out == NoLocation <==>
      f.title != "" && f.fullAddress != "" && IsTenDigits(f.postalCode) && !f.locationSelected
    ensures out.Saved? <==> f.title != "" && f.fullAddress != "" && IsTenDigits(f.postalCode) && f.locationSelected
    ensures out.Saved? ==> out.address == Address(SavedId(initial, freshId), f.title, f.city, Tehran,
      f.fullAddress, f.postalCode, f.location.lat, f.location.lng)
  {
    if f.title == "" || f.fullAddress == "" || f.postalCode == "" then MissingFields
    else if !IsTenDigits(f.postalCode) then BadPostalCode
    else if !f.locationSelected then NoLocation
    else Saved(Address(SavedId(initial, freshId), f.title, f.city, Tehran,
      f.fullAddress, f.postalCode, f.location.lat, f.location.lng))
  }

  /** Editing an address with an id saves it under that id, so the book replaces it in place. */
  lemma EditKeepsId(f: Fields, a: Address, freshId: string)
    requires a.id != ""
    ensures Submit(f, Some(a), freshId).Saved? ==> Submit(f, Some(a), freshId).address.id == a.id
  {
  }

  /** A code that came from the input sanitiser is rejected by the format check exactly when it is short. */
  lemma TypedCodeRejectedIffShort(f: Fields, raw: string, initial: Option<Address>, freshId: string)
    requires f.postalCode == SanitizePostal(raw) && f.title != "" && f.fullAddress != ""
    requires KeepAsciiDigits(raw) != []
    ensures Submit(f, initial, freshId) == BadPostalCode <==> |KeepAsciiDigits(raw)| < 10
  {
    SanitizedPassesIff(raw);
  }

  /**
   * The browser's constraint validation before `onSubmit`: the title and the
   * full address carry `required`, and the postal code `required` with
   * `pattern="\d{10}"`, which the browser matches against the whole value.
   */
  predicate ConstraintsMet(f: Fields)
  {
    f.title != "" && f.fullAddress != "" && IsTenDigits(f.postalCode)
  }

  /**
   * The first two alerts fire exactly on the forms the browser refuses to
   * submit, so through the form only the location check can stop a save.
   */
  lemma AlertsBehindConstraints(f: Fields, initial: Option<Address>, freshId: string)
    ensures Submit(f, initial, freshId) in {MissingFields, BadPostalCode} <==> !ConstraintsMet(f)
    ensures ConstraintsMet(f) ==> (Submit(f, initial, freshId).Saved? <==> f.locationSelected)
  {
  }

  /** The state of the form component. */
  class AddressFormView {
    const initialAddress: Option<Address>
    var title: string
    var city: string
    var fullAddress: string
    var postalCode: string
    var location: Location
    var isLocationSelected: bool
    var isMapOpen: bool
    var searchQuery: string

    /**
     * Fields start from the address being edited, with '' (or Tehran for the
     * city) where it has none; the location counts as chosen only when editing.
     */
    constructor (initialAddress: Option<Address>)
      ensures this.initialAddress == initialAddress
      ensures initialAddress.None? ==> title == "" && city == Tehran && fullAddress == "" && postalCode == ""
      ensures initialAddress.None? ==> location == MapCentre
      ensures initialAddress.Some? ==> var a := initialAddress.value;
        title == a.title && fullAddress == a.fullAddress && postalCode == a.postalCode &&
        city == (if a.city == "" then Tehran else a.city) && location == Location(a.lat, a.lng)
      ensures isLocationSelected <==> initialAddress.Some?
      ensures !isMapOpen && searchQuery == ""
    {
      this.initialAddress := initialAddress;
      match initialAddress {
        case None =>
          title, city, fullAddress, postalCode := "", Tehran, "", "";
          location := MapCentre;
        case Some(a) =>
          title, fullAddress, postalCode := a.title, a.fullAddress, a.postalCode;
          city := if a.city == "" then Tehran else a.city;
          location := Location(a.lat, a.lng);
      }
      isLocationSelected := initialAddress.Some?;
      isMapOpen := false;
      searchQuery := "";
    }

    function CurrentFields(): Fields
      reads this
    {
      Fields(title, city, fullAddress, postalCode, location, isLocationSelected)
    }

    method SetTitle(value: string)
      modifies this
      ensures title == value
      ensures city == old(city) && fullAddress == old(fullAddress) && postalCode == old(postalCode)
      ensures location == old(location) && isLocationSelected == old(isLocationSelected)
      ensures isMapOpen == old(isMapOpen) && searchQuery == old(searchQuery)
    {
      title := value;
    }

    method SetFullAddress(value: string)
      modifies this
      ensures fullAddress == value
      ensures title == old(title) && city == old(city) && postalCode == old(postalCode)
      ensures location == old(location) && isLocationSelected == old(isLocationSelected)
      ensures isMapOpen == old(isMapOpen) && searchQuery == old(searchQuery)
    {
      fullAddress := value;
    }

    /** The postal input's change handler: the field becomes the sanitised text. */
    method TypePostalCode(raw: string)
      modifies this
      ensures postalCode == SanitizePostal(raw)
      ensures title == old(title) && city == old(city) && fullAddress == old(fullAddress)
      ensures location == old(location) && isLocationSelected == old(isLocationSelected)
      ensures isMapOpen == old(isMapOpen) && searchQuery == old(searchQuery)
    {
      postalCode := SanitizePostal(raw);
    }

    method OpenMap()
      modifies this
      ensures isMapOpen
      ensures title == old(title) && city == old(city) && fullAddress == old(fullAddress)
      ensures postalCode == old(postalCode) && location == old(location)
      ensures isLocationSelected == old(isLocationSelected) && searchQuery == old(searchQuery)
    {
      isMapOpen := true;
    }

    method SetSearchQuery(query: string)
      modifies this
      ensures searchQuery == query
      ensures title == old(title) && city == old(city) && fullAddress == old(fullAddress)
      ensures postalCode == old(postalCode) && location == old(location)
      ensures isLocationSelected == old(isLocationSelected) && isMapOpen == old(isMapOpen)
    {
      searchQuery := query;
    }

    /** A marker drag or a map click moves the location; it does not confirm it. */
    method MoveMarker(to: Location)
      modifies this
      ensures location == to
      ensures title == old(title) && city == old(city) && fullAddress == old(fullAddress)
      ensures postalCode == old(postalCode) && isLocationSelected == old(isLocationSelected)
      ensures isMapOpen == old(isMapOpen) && searchQuery == old(searchQuery)
    {
      location := to;
    }

    /**
     * `handleSearchLocation`: a blank query sends no request; otherwise the
     * geocoder's answer (`found`, none on no hit or on a failure) moves the
     * location when there is one.
     */
    method SearchLocation(found: Option<Location>) returns (requested: bool)
      modifies this
      ensures requested <==> !IsBlank(searchQuery)
      ensures location == if requested && found.Some? then found.value else old(location)
      ensures title == old(title) && city == old(city) && fullAddress == old(fullAddress)
      ensures postalCode == old(postalCode) && isLocationSelected == old(isLocationSelected)
      ensures isMapOpen == old(isMapOpen) && searchQuery == old(searchQuery)
    {
      if IsBlank(searchQuery) {
        return false;
      }
      requested := true;
      if found.Some? {
        location := found.value;
      }
    }

    /** `handleConfirmLocation`: the location is now chosen and the map closes. */
    method ConfirmLocation()
      modifies this
      ensures isLocationSelected && !isMapOpen
      ensures title == old(title) && city == old(city) && fullAddress == old(fullAddress)
      ensures postalCode == old(postalCode) && location == old(location) && searchQuery == old(searchQuery)
    {
      isLocationSelected := true;
      isMapOpen := false;
    }

    /** `handleSubmit`, with the random id as a parameter; the form itself does not change. */
    method HandleSubmit(freshId: string) returns (out: SubmitOutcome)
      ensures out == Submit(CurrentFields(), initialAddress, freshId)
    {
      if title == "" || fullAddress == "" || postalCode == "" {
        return MissingFields;
      }
      if !IsTenDigits(postalCode) {
        return BadPostalCode;
      }
      if !isLocationSelected {
        return NoLocation;
      }
      var id := if initialAddress.Some? && initialAddress.value.id != "" then initialAddress.value.id else freshId;
      out := Saved(Address(id, title, city, Tehran, fullAddress, postalCode, location.lat, location.lng));
    }

    /** Pressing save: the browser's validation first, then `handleSubmit` when the form passes it. */
    method SubmitForm(freshId: string) returns (out: Option<SubmitOutcome>)
      ensures ConstraintsMet(CurrentFields()) ==> out == Some(Submit(CurrentFields(), initialAddress, freshId))
      ensures !ConstraintsMet(CurrentFields()) ==> out == None
    {
      if title != "" && fullAddress != "" && IsTenDigits(postalCode) {
        var outcome := HandleSubmit(freshId);
        out := Some(outcome);
      } else {
        out := None;
      }
    }
  }
}
