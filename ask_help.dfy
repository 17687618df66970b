/** The "Request Emergency Help" panel: its form state, validator, field
    handlers, location search and the current-location request with its
    Cebu City fallback. */
module AskHelp {
  import opened Wrappers
  import opened Text
  import opened PhonePattern
  import opened FormCommon

  /** The form data. `city` is absent until a location is chosen, as the
      initial state object has no `city` property. */
  datatype HelpForm = HelpForm(
    title: string,
    category: seq<string>,
    description: string,
    fullName: string,
    contactNumber: string,
    manualLocation: string,
    coordinates: Option<Coords>,
    city: Option<string>)

  const InitialForm := HelpForm("", [], "", "", "", "", None, None)

  /** The text inputs wired to `handleChange`, by their `name` attribute. */
  datatype Input = TitleInput | DescriptionInput | FullNameInput | ContactNumberInput {
    function Key(): ErrorKey {
      match this
      case TitleInput => Title
      case DescriptionInput => Description
      case FullNameInput => FullName
      case ContactNumberInput => ContactNumber
    }
  }

  function FieldValue(f: HelpForm, input: Input): string {
    match input
    case TitleInput => f.title
    case DescriptionInput => f.description
    case FullNameInput => f.fullName
    case ContactNumberInput => f.contactNumber
  }

  /** `{ ...prev, [name]: value }`: the named input takes `value`, every other
      input and every other part of the form keeps its value. */
  function WithField(f: HelpForm, input: Input, value: string): (r: HelpForm)
    ensures FieldValue(r, input) == value
    ensures forall other :: other != input ==> FieldValue(r, other) == FieldValue(f, other)
    ensures r.category == f.category && r.manualLocation == f.manualLocation
    ensures r.coordinates == f.coordinates && r.city == f.city
  {
    match input
    case TitleInput => f.(title := value)
    case DescriptionInput => f.(description := value)
    case FullNameInput => f.(fullName := value)
    case ContactNumberInput => f.(contactNumber := value)
  }

  const TitleRequired := "Title is required."
  const DescriptionRequired := "Please describe your situation."
  const PhoneInvalid := "Please enter a valid PH mobile number (e.g., 09171234567)."

  /** The message the validator records under `key`, if any. */
  function ErrorFor(f: HelpForm, key: ErrorKey): Option<string> {
    match key
    case Title => if IsBlank(f.title) then Some(TitleRequired) else None
    case Category => if |f.category| == 0 then Some(CategoryRequired) else None
    case Description => if IsBlank(f.description) then Some(DescriptionRequired) else None
    case FullName => if IsBlank(f.fullName) then Some(FullNameRequired) else None
    case ContactNumber => ContactNumberError(f.contactNumber, PhoneInvalid)
    case Location => if HasLocation(f.coordinates, f.manualLocation) then None else Some(LocationRequired)
  }

  /** The error object the validator produces: under each key, that key's message. */
  function HelpErrors(f: HelpForm): Errors {
    Errors(ErrorFor(f, Title), ErrorFor(f, Category), ErrorFor(f, Description),
      ErrorFor(f, FullName), ErrorFor(f, ContactNumber), ErrorFor(f, Location))
  }

  /** Everything the validator asks of a help request. */
  predicate ReadyToSubmit(f: HelpForm) {
    && !IsBlank(f.title)
    && |f.category| > 0
    && !IsBlank(f.description)
    && !IsBlank(f.fullName)
    && Matches(Trim(f.contactNumber))
    && HasLocation(f.coordinates, f.manualLocation)
  }

  /** The validator reports no error exactly when the form is ready. */
  lemma HelpErrorsEmptyIff(f: HelpForm)
    ensures HelpErrors(f).IsEmpty() <==> ReadyToSubmit(f)
  {
    var e := HelpErrors(f);
    if e.IsEmpty() {
      assert e.Get(Title).None? && e.Get(Category).None? && e.Get(Description).None?;
      assert e.Get(FullName).None? && e.Get(ContactNumber).None? && e.Get(Location).None?;
    }
    if ReadyToSubmit(f) {
      forall key ensures e.Get(key).None? {
        match key
        case Title =>
        case Category =>
        case Description =>
        case FullName =>
        case ContactNumber =>
        case Location =>
      }
    }
  }

  /** The contact number gets at most one message: "required" exactly when it
      is blank, the format message exactly when it is not blank and fails the
      pattern. */
  lemma ContactMessagesExclusive(f: HelpForm)
    ensures HelpErrors(f).contactNumber.Some? <==> !Matches(Trim(f.contactNumber))
    ensures HelpErrors(f).contactNumber == Some(ContactRequired) <==> IsBlank(f.contactNumber)
    ensures HelpErrors(f).contactNumber == Some(PhoneInvalid) <==>
      !IsBlank(f.contactNumber) && !Matches(Trim(f.contactNumber))
  {
  }

  /** The body of `validateForm`: the error object built field by field is
      the validator's error object, and it is empty exactly when the form is
      ready to submit. */
  method CollectErrors(f: HelpForm) returns (newErrors: Errors)
    ensures newErrors == HelpErrors(f)
    ensures newErrors.IsEmpty() <==> ReadyToSubmit(f)
  {
    newErrors := NoErrors;
    if IsBlank(f.title) {
      newErrors := newErrors.(title := Some(TitleRequired));
    }
    if |f.category| == 0 {
      newErrors := newErrors.(category := Some(CategoryRequired));
    }
    if IsBlank(f.description) {
      newErrors := newErrors.(description := Some(DescriptionRequired));
    }
    if IsBlank(f.fullName) {
      newErrors := newErrors.(fullName := Some(FullNameRequired));
    }
    if IsBlank(f.contactNumber) {
      newErrors := newErrors.(contactNumber := Some(ContactRequired));
    } else if !Matches(Trim(f.contactNumber)) {
      newErrors := newErrors.(contactNumber := Some(PhoneInvalid));
    }
    if f.coordinates.None? && IsBlank(f.manualLocation) {
      newErrors := newErrors.(location := Some(LocationRequired));
    }
    HelpErrorsEmptyIff(f);
  }

  /** The fallback used when the position cannot be obtained in time. */
  const FallbackCoords := Coords(10.3157, 123.8854)
  const FallbackLabel := "Approximate Location (Cebu City)"
  const FallbackCity := "Cebu City"

  /** The label shown for a detected position; `latText` and `lonText` are the
      coordinates rendered with four decimals. */
  function CurrentLocationLabel(latText: string, lonText: string): string {
    "Current Location (" + latText + ", " + lonText + ")"
  }

  /** A JavaScript value that may be missing, read for its truthiness. */
  predicate Truthy(v: Option<string>) {
    v.Some? && v.value != ""
  }

  /** No candidate before index `i` is truthy. */
  predicate NoneTruthyBefore(candidates: seq<Option<string>>, i: int)
    requires i <= |candidates|
  {
    forall j :: 0 <= j < i ==> !Truthy(candidates[j])
  }

  /** `a || b || ... || ''` over strings: the first truthy candidate, or the
      empty string when there is none. */
  function FirstTruthy(candidates: seq<Option<string>>): (r: string)
    ensures r == "" <==> forall i :: 0 <= i < |candidates| ==> !Truthy(candidates[i])
    ensures r != "" ==> exists i :: 0 <= i < |candidates| && candidates[i] == Some(r) && NoneTruthyBefore(candidates, i)
  {
    if candidates == [] then ""
    else if Truthy(candidates[0]) then candidates[0].value
    else
      var r := FirstTruthy(candidates[1..]);
      assert r != "" ==> exists i :: 0 <= i < |candidates| && candidates[i] == Some(r) && NoneTruthyBefore(candidates, i) by {
        if r != "" {
          var k :| 0 <= k < |candidates[1..]| && candidates[1..][k] == Some(r) && NoneTruthyBefore(candidates[1..], k);
          assert candidates[k + 1] == Some(r);
          assert NoneTruthyBefore(candidates, k + 1) by {
            forall j | 0 <= j < k + 1 ensures !Truthy(candidates[j]) {
              if j > 0 { assert candidates[j] == candidates[1..][j - 1]; }
            }
          }
        }
      }
      r
  }

  /** The `address` part of a reverse-geocoding answer. */
  datatype Address = Address(city: Option<string>, town: Option<string>, village: Option<string>)

  /** A reverse-geocoding lookup: the request failed, or it answered with or
      without an `address`. */
  datatype ReverseResponse = ReverseFailed | ReverseOk(address: Option<Address>)

  /** The city name taken from a reverse lookup: the first truthy one of the
      address's city, town and village, and the empty string on any failure
      (a failed request or an answer without an address). */
  function CityFromResponse(response: ReverseResponse): (city: string)
    ensures response.ReverseFailed? || response.address.None? ==> city == ""
    ensures city != "" ==> var a := response.address.value;
      Some(city) == a.city || Some(city) == a.town || Some(city) == a.village
    ensures response.ReverseOk? && response.address.Some? ==> var a := response.address.value;
      city == if Truthy(a.city) then a.city.value
              else if Truthy(a.town) then a.town.value
              else if Truthy(a.village) then a.village.value
              else ""
  {
    match response
    case ReverseFailed => ""
    case ReverseOk(None) => ""
    case ReverseOk(Some(a)) =>
      var candidates := [a.city, a.town, a.village];
      assert candidates[1..] == [a.town, a.village] && [a.town, a.village][1..] == [a.village];
      assert FirstTruthy([a.village]) == if Truthy(a.village) then a.village.value else "" by {
        assert [a.village][1..] == [];
      }
      assert FirstTruthy([a.town, a.village]) == if Truthy(a.town) then a.town.value else FirstTruthy([a.village]);
      FirstTruthy(candidates)
  }

  /** A chosen search result whose reverse lookup is still awaited, with
      the errors of the render in which it was chosen. */
  datatype PendingSelection = PendingSelection(result: Place, clickErrors: Errors)

  /** The panel's React state. */
  class AskHelpPanel {
    var formData: HelpForm
    var errors: Errors
    var isGettingLocation: bool
    var currentLocation: Option<Coords>
    var locationSearch: string
    var locationResults: seq<Place>
    var isDebouncing: bool

    constructor ()
      ensures formData == InitialForm && errors == NoErrors
      ensures !isGettingLocation && currentLocation == None
      ensures locationSearch == "" && locationResults == [] && !isDebouncing
    {
      formData := InitialForm;
      errors := NoErrors;
      isGettingLocation := false;
      currentLocation := None;
      locationSearch := "";
      locationResults := [];
      isDebouncing := false;
    }

    /** The effect run when `isOpen` changes: on opening, back to the initial
        form with no errors, search text, results or current location; on
        closing, nothing. */
    method OnOpenEffect(isOpen: bool)
      modifies this`formData, this`errors, this`locationSearch, this`locationResults, this`currentLocation
      ensures isOpen ==> formData == InitialForm && errors == NoErrors
      ensures isOpen ==> locationSearch == "" && locationResults == [] && currentLocation == None
      ensures !isOpen ==> unchanged(this)
    {
      if isOpen {
        formData := InitialForm;
        errors := NoErrors;
        locationSearch := "";
        locationResults := [];
        currentLocation := None;
      }
    }

    /** The effect run when the search text changes. A query too short after
        trimming empties the results and schedules nothing; otherwise the
        spinner starts and a fetch is scheduled. */
    method OnLocationSearchEffect() returns (fetchScheduled: bool)
      modifies this`locationResults, this`isDebouncing
      ensures fetchScheduled <==> SearchQualifies(locationSearch)
      ensures !fetchScheduled ==> locationResults == [] && isDebouncing == old(isDebouncing)
      ensures fetchScheduled ==> locationResults == old(locationResults) && isDebouncing
    {
      if Utf16Length(Trim(locationSearch)) < MinSearchLength {
        locationResults := [];
        return false;
      }
      isDebouncing := true;
      fetchScheduled := true;
    }

    /** The scheduled forward lookup completes: its results replace the list,
        a failed request keeps it; the spinner stops either way. */
    method OnLocationsFetched(response: Option<seq<Place>>)
      modifies this`locationResults, this`isDebouncing
      ensures locationResults == if response.Some? then response.value else old(locationResults)
      ensures !isDebouncing
    {
      if response.Some? {
        locationResults := response.value;
      }
      isDebouncing := false;
    }

    /** `validateForm`: builds the error object, stores it, and reports
        whether it is empty. */
    method ValidateForm() returns (valid: bool)
      modifies this`errors
      ensures errors == HelpErrors(formData)
      ensures valid <==> ReadyToSubmit(formData)
    {
      var newErrors := CollectErrors(formData);
      errors := newErrors;
      valid := newErrors.IsEmpty();
    }

    /** A text input changed: only that field takes the new value, and only
        that field's error is cleared. */
    method HandleChange(input: Input, value: string)
      modifies this`formData, this`errors
      ensures formData == WithField(old(formData), input, value)
      ensures errors == old(errors).Clear(input.Key())
    {
      formData := WithField(formData, input, value);
      if errors.Get(input.Key()).Some? {
        errors := errors.Clear(input.Key());
      }
    }

    /** A category button was clicked. */
    method HandleCategoryToggle(name: string)
      modifies this`formData, this`errors
      ensures formData == old(formData).(category := ToggleCategory(old(formData).category, name))
      ensures errors == old(errors).(category := None)
    {
      formData := formData.(category := ToggleCategory(formData.category, name));
      if errors.category.Some? {
        errors := errors.(category := None);
      }
    }

    /** The user typed in the search box: the text becomes the manual location
        and any coordinates are dropped. */
    method HandleLocationSearchChange(text: string)
      modifies this`locationSearch, this`formData, this`currentLocation, this`errors
      ensures locationSearch == text
      ensures formData == old(formData).(manualLocation := text, coordinates := None)
      ensures currentLocation == None
      ensures errors == old(errors).(location := None)
    {
      locationSearch := text;
      formData := formData.(manualLocation := text, coordinates := None);
      currentLocation := None;
      if errors.location.Some? {
        errors := errors.(location := None);
      }
    }

    /** A search result was chosen. The handler awaits a reverse lookup
        before it changes anything, and what it then reads of the errors is
        still the errors of the render in which the result was clicked; the
        returned selection carries both, and nothing changes yet. */
    method HandleLocationSelect(result: Place) returns (pending: PendingSelection)
      ensures pending == PendingSelection(result, errors)
    {
      pending := PendingSelection(result, errors);
    }

    /** The reverse lookup of a pending selection answered with `reverse`.
        The location error is cleared only when the errors seen at the click
        had one, so an error raised while the lookup was under way stays.
        Returns the position handed to the map preview. */
    method CompleteLocationSelect(pending: PendingSelection, reverse: ReverseResponse) returns (preview: Coords)
      modifies this`locationSearch, this`formData, this`currentLocation, this`locationResults, this`errors
      ensures preview == Coords(pending.result.lat, pending.result.lon)
      ensures locationSearch == pending.result.displayName
      ensures formData == old(formData).(manualLocation := pending.result.displayName,
        coordinates := Some(preview), city := Some(CityFromResponse(reverse)))
      ensures currentLocation == None && locationResults == []
      ensures errors == if pending.clickErrors.location.Some? then old(errors).(location := None) else old(errors)
    {
      var coords := Coords(pending.result.lat, pending.result.lon);
      var city := CityFromResponse(reverse);
      locationSearch := pending.result.displayName;
      formData := formData.(manualLocation := pending.result.displayName, coordinates := Some(coords), city := Some(city));
      currentLocation := None;
      locationResults := [];
      if pending.clickErrors.location.Some? {
        errors := errors.(location := None);
      }
      preview := coords;
    }

    /** "Use My Current Location". Without browser geolocation the spinner is
        switched off again and nothing is requested; otherwise a position
        request starts, with its own `locationRetrieved` flag still false. */
    method HandleUseCurrentLocation(supported: bool) returns (request: LocationRequest?)
      modifies this`isGettingLocation
      ensures request != null <==> supported
      ensures isGettingLocation == supported
      ensures request != null ==> fresh(request) && request.panel == this && !request.retrieved
    {
      isGettingLocation := true;
      if !supported {
        isGettingLocation := false;
        return null;
      }
      request := new LocationRequest(this);
    }

    /** Submitting hands the form to the caller's handler exactly when the
        validator passes. */
    method HandleSubmit() returns (submitted: Option<HelpForm>)
      modifies this`errors
      ensures errors == HelpErrors(formData)
      ensures submitted.Some? <==> ReadyToSubmit(formData)
      ensures submitted.Some? ==> submitted.value == formData
    {
      var valid := ValidateForm();
      if valid {
        submitted := Some(formData);
      } else {
        submitted := None;
      }
    }
  }

  /** One press of "Use My Current Location": the browser's success or error
      callback and the 7-second fallback timer, sharing the
      `locationRetrieved` flag. */
  class LocationRequest {
    const panel: AskHelpPanel
    var retrieved: bool

    constructor (panel: AskHelpPanel)
      ensures this.panel == panel && !retrieved
    {
      this.panel := panel;
      retrieved := false;
    }

    /** The browser delivered a position; `latText` and `lonText` are its
        coordinates with four decimals. The city is filled in later by
        `OnCityFetched`. Returns the position handed to the map preview. */
    method OnSuccess(coords: Coords, latText: string, lonText: string) returns (preview: Coords)
      modifies this`retrieved, panel`formData, panel`locationSearch, panel`currentLocation, panel`isGettingLocation
      ensures retrieved
      ensures panel.formData == old(panel.formData).(coordinates := Some(coords),
        manualLocation := CurrentLocationLabel(latText, lonText))
      ensures panel.locationSearch == CurrentLocationLabel(latText, lonText)
      ensures panel.currentLocation == Some(coords) && !panel.isGettingLocation
      ensures preview == coords
    {
      retrieved := true;
      var shown := CurrentLocationLabel(latText, lonText);
      panel.formData := panel.formData.(coordinates := Some(coords), manualLocation := shown);
      panel.locationSearch := shown;
      panel.currentLocation := Some(coords);
      preview := coords;
      panel.isGettingLocation := false;
    }

    /** The reverse lookup started by `OnSuccess` answered. */
    method OnCityFetched(response: ReverseResponse)
      modifies panel`formData
      ensures panel.formData == old(panel.formData).(city := Some(CityFromResponse(response)))
    {
      panel.formData := panel.formData.(city := Some(CityFromResponse(response)));
    }

    /** Sets the Cebu City fallback on the panel. */
    method ApplyFallback()
      modifies panel`formData, panel`locationSearch, panel`currentLocation, panel`isGettingLocation
      ensures panel.formData == old(panel.formData).(coordinates := Some(FallbackCoords),
        manualLocation := FallbackLabel, city := Some(FallbackCity))
      ensures panel.locationSearch == FallbackLabel
      ensures panel.currentLocation == Some(FallbackCoords) && !panel.isGettingLocation
    {
      panel.formData := panel.formData.(coordinates := Some(FallbackCoords),
        manualLocation := FallbackLabel, city := Some(FallbackCity));
      panel.locationSearch := FallbackLabel;
      panel.currentLocation := Some(FallbackCoords);
      panel.isGettingLocation := false;
    }

    /** The browser reported an error: the flag is set and the fallback applies. */
    method OnError() returns (preview: Coords)
      modifies this`retrieved, panel`formData, panel`locationSearch, panel`currentLocation, panel`isGettingLocation
      ensures retrieved
      ensures panel.formData == old(panel.formData).(coordinates := Some(FallbackCoords),
        manualLocation := FallbackLabel, city := Some(FallbackCity))
      ensures panel.locationSearch == FallbackLabel
      ensures panel.currentLocation == Some(FallbackCoords) && !panel.isGettingLocation
      ensures preview == FallbackCoords
    {
      retrieved := true;
      ApplyFallback();
      preview := FallbackCoords;
    }

    /** The 7-second timer fired. Once a callback has set the flag it changes
        nothing; before that it applies the fallback, without setting the flag. */
    method OnTimeout() returns (preview: Option<Coords>)
      modifies panel`formData, panel`locationSearch, panel`currentLocation, panel`isGettingLocation
      ensures old(retrieved) ==> unchanged(panel) && preview == None
      ensures !old(retrieved) ==>
        && panel.formData == old(panel.formData).(coordinates := Some(FallbackCoords),
             manualLocation := FallbackLabel, city := Some(FallbackCity))
        && panel.locationSearch == FallbackLabel
        && panel.currentLocation == Some(FallbackCoords) && !panel.isGettingLocation
        && preview == Some(FallbackCoords)
    {
      if retrieved {
        return None;
      }
      ApplyFallback();
      preview := Some(FallbackCoords);
    }
  }

  /** A request whose error callback ran first: the timer that fires afterwards
      leaves the fallback location as the error callback set it. */
  method ErrorThenTimeout(panel: AskHelpPanel)
    modifies panel
    ensures panel.formData.coordinates == Some(FallbackCoords) && panel.formData.city == Some(FallbackCity)
    ensures panel.locationSearch == FallbackLabel && !panel.isGettingLocation
  {
    var request := panel.HandleUseCurrentLocation(true);
    var _ := request.OnError();
    var before := panel.formData;
    var late := request.OnTimeout();
    assert late == None && panel.formData == before;
    assert panel.formData.coordinates == Some(FallbackCoords);
  }

  /** The initial form has no location, so its validation reports one missing. */
  lemma EmptyFormLacksLocation()
    ensures HelpErrors(InitialForm).location == Some(LocationRequired)
  {
    assert !HasLocation(InitialForm.coordinates, InitialForm.manualLocation);
  }

  /** A fresh panel: a search result is chosen, Submit is pressed while its
      reverse lookup is under way, then the lookup answers. The form now has
      a location, yet the location message raised by the submit stays on
      screen, because the handler consults the errors of the click. */
  method SubmitWhileSelecting(result: Place, reverse: ReverseResponse) returns (panel: AskHelpPanel)
    ensures panel.formData.coordinates == Some(Coords(result.lat, result.lon))
    ensures HasLocation(panel.formData.coordinates, panel.formData.manualLocation)
    ensures panel.errors.location == Some(LocationRequired)
  {
    panel := new AskHelpPanel();
    var pending := panel.HandleLocationSelect(result);
    var submitted := panel.HandleSubmit();
    EmptyFormLacksLocation();
    var preview := panel.CompleteLocationSelect(pending, reverse);
  }
}
