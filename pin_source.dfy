/** The "Pinpoint a Source" panel: its form state, validator (no title),
    field handlers, location search and the current-location request, which
    has no fallback position. */
module PinSource {
  import opened Wrappers
  import opened Text
  import opened PhonePattern
  import opened FormCommon

  /** The form data of a source report. */
  datatype SourceForm = SourceForm(
    category: seq<string>,
    description: string,
    fullName: string,
    contactNumber: string,
    manualLocation: string,
    coordinates: Option<Coords>)

  const InitialForm := SourceForm([], "", "", "", "", None)

  /** The text inputs wired to `handleChange`, by their `name` attribute. */
  datatype Input = DescriptionInput | FullNameInput | ContactNumberInput {
    function Key(): ErrorKey {
      match this
      case DescriptionInput => Description
      case FullNameInput => FullName
      case ContactNumberInput => ContactNumber
    }
  }

  function FieldValue(f: SourceForm, input: Input): string {
    match input
    case DescriptionInput => f.description
    case FullNameInput => f.fullName
    case ContactNumberInput => f.contactNumber
  }

  /** `{ ...prev, [name]: value }`: the named input takes `value`, every other
      input and every other part of the form keeps its value. */
  function WithField(f: SourceForm, input: Input, value: string): (r: SourceForm)
    ensures FieldValue(r, input) == value
    ensures forall other :: other != input ==> FieldValue(r, other) == FieldValue(f, other)
    ensures r.category == f.category && r.manualLocation == f.manualLocation
    ensures r.coordinates == f.coordinates
  {
    match input
    case DescriptionInput => f.(description := value)
    case FullNameInput => f.(fullName := value)
    case ContactNumberInput => f.(contactNumber := value)
  }

  const DescriptionRequired := "Description is required."
  const PhoneInvalid := "Please enter a valid PH mobile number (e.g., 09171234567 or +639171234567)."

  /** The message the validator records under `key`, if any; it never
      records one under the title key. */
  function ErrorFor(f: SourceForm, key: ErrorKey): Option<string> {
    match key
    case Title => None
    case Category => if |f.category| == 0 then Some(CategoryRequired) else None
    case Description => if IsBlank(f.description) then Some(DescriptionRequired) else None
    case FullName => if IsBlank(f.fullName) then Some(FullNameRequired) else None
    case ContactNumber => ContactNumberError(f.contactNumber, PhoneInvalid)
    case Location => if HasLocation(f.coordinates, f.manualLocation) then None else Some(LocationRequired)
  }

  /** The error object the validator produces: under each key, that key's message. */
  function SourceErrors(f: SourceForm): Errors {
    Errors(ErrorFor(f, Title), ErrorFor(f, Category), ErrorFor(f, Description),
      ErrorFor(f, FullName), ErrorFor(f, ContactNumber), ErrorFor(f, Location))
  }

  /** Everything the validator asks of a source report. */
  predicate ReadyToSubmit(f: SourceForm) {
    && |f.category| > 0
    && !IsBlank(f.description)
    && !IsBlank(f.fullName)
    && Matches(Trim(f.contactNumber))
    && HasLocation(f.coordinates, f.manualLocation)
  }

  /** The validator reports no error exactly when the form is ready. */
  lemma SourceErrorsEmptyIff(f: SourceForm)
    ensures SourceErrors(f).IsEmpty() <==> ReadyToSubmit(f)
  {
    var e := SourceErrors(f);
    if e.IsEmpty() {
      assert e.Get(Category).None? && e.Get(Description).None?;
      assert e.Get(FullName).None? && e.Get(ContactNumber).None? && e.Get(Location).None?;
    }
    if ReadyToSubmit(f) {
      forall key ensures e.Get(key).None? {
        match key
        case Title =>
        case Category =>
        case Description =>
        case FullName =>
        case ContactNumber =>
        case Location =>
      }
    }
  }

  /** The contact number gets at most one message: "required" exactly when it
      is blank, the format message exactly when it is not blank and fails the
      pattern. */
  lemma ContactMessagesExclusive(f: SourceForm)
    ensures SourceErrors(f).contactNumber.Some? <==> !Matches(Trim(f.contactNumber))
    ensures SourceErrors(f).contactNumber == Some(ContactRequired) <==> IsBlank(f.contactNumber)
    ensures SourceErrors(f).contactNumber == Some(PhoneInvalid) <==>
      !IsBlank(f.contactNumber) && !Matches(Trim(f.contactNumber))
  {
  }

  /** The body of `validateForm`: the error object built field by field is
      the validator's error object, and it is empty exactly when the form is
      ready to submit. */
  method CollectErrors(f: SourceForm) returns (newErrors: Errors)
    ensures newErrors == SourceErrors(f)
    ensures newErrors.IsEmpty() <==> ReadyToSubmit(f)
  {
    newErrors := NoErrors;
    if |f.category| == 0 {
      newErrors := newErrors.(category := Some(CategoryRequired));
    }
    if IsBlank(f.description) {
      newErrors := newErrors.(description := Some(DescriptionRequired));
    }
    if IsBlank(f.fullName) {
      newErrors := newErrors.(fullName := Some(FullNameRequired));
    }
    if IsBlank(f.contactNumber) {
      newErrors := newErrors.(contactNumber := Some(ContactRequired));
    } else if !Matches(Trim(f.contactNumber)) {
      newErrors := newErrors.(contactNumber := Some(PhoneInvalid));
    }
    if f.coordinates.None? && IsBlank(f.manualLocation) {
      newErrors := newErrors.(location := Some(LocationRequired));
    }
    SourceErrorsEmptyIff(f);
  }

  /** The label shown for a detected position. */
  const CurrentLocationLabel := "Current Location (approx.)"

  /** The panel's React state. */
  class PinSourcePanel {
    var formData: SourceForm
    var errors: Errors
    var isGettingLocation: bool
    var locationSearch: string
    var locationResults: seq<Place>
    var isDebouncing: bool

    constructor ()
      ensures formData == InitialForm && errors == NoErrors && !isGettingLocation
      ensures locationSearch == "" && locationResults == [] && !isDebouncing
    {
      formData := InitialForm;
      errors := NoErrors;
      isGettingLocation := false;
      locationSearch := "";
      locationResults := [];
      isDebouncing := false;
    }

    /** The effect run when `isOpen` changes: on opening, back to the initial
        form with no errors, search text or results; on closing, nothing. */
    method OnOpenEffect(isOpen: bool)
      modifies this`formData, this`errors, this`locationSearch, this`locationResults
      ensures isOpen ==> formData == InitialForm && errors == NoErrors
      ensures isOpen ==> locationSearch == "" && locationResults == []
      ensures !isOpen ==> unchanged(this)
    {
      if isOpen {
        formData := InitialForm;
        errors := NoErrors;
        locationSearch := "";
        locationResults := [];
      }
    }

    /** The effect run when the search text changes. A query too short after
        trimming empties the results and schedules nothing; otherwise the
        spinner starts and a fetch is scheduled. */
    method OnLocationSearchEffect() returns (fetchScheduled: bool)
      modifies this`locationResults, this`isDebouncing
      ensures fetchScheduled <==> SearchQualifies(locationSearch)
      ensures !fetchScheduled ==> locationResults == [] && isDebouncing == old(isDebouncing)
      ensures fetchScheduled ==> locationResults == old(locationResults) && isDebouncing
    {
      if Utf16Length(Trim(locationSearch)) < MinSearchLength {
        locationResults := [];
        return false;
      }
      isDebouncing := true;
      fetchScheduled := true;
    }

    /** The scheduled forward lookup completes: its results replace the list,
        a failed request keeps it; the spinner stops either way. */
    method OnLocationsFetched(response: Option<seq<Place>>)
      modifies this`locationResults, this`isDebouncing
      ensures locationResults == if response.Some? then response.value else old(locationResults)
      ensures !isDebouncing
    {
      if response.Some? {
        locationResults := response.value;
      }
      isDebouncing := false;
    }

    /** `validateForm`: builds the error object, stores it, and reports
        whether it is empty. */
    method ValidateForm() returns (valid: bool)
      modifies this`errors
      ensures errors == SourceErrors(formData)
      ensures valid <==> ReadyToSubmit(formData)
    {
      var newErrors := CollectErrors(formData);
      errors := newErrors;
      valid := newErrors.IsEmpty();
    }

    /** A text input changed: only that field takes the new value, and only
        that field's error is cleared. */
    method HandleChange(input: Input, value: string)
      modifies this`formData, this`errors
      ensures formData == WithField(old(formData), input, value)
      ensures errors == old(errors).Clear(input.Key())
    {
      formData := WithField(formData, input, value);
      if errors.Get(input.Key()).Some? {
        errors := errors.Clear(input.Key());
      }
    }

    /** A category button was clicked. */
    method HandleCategoryToggle(name: string)
      modifies this`formData, this`errors
      ensures formData == old(formData).(category := ToggleCategory(old(formData).category, name))
      ensures errors == old(errors).(category := None)
    {
      formData := formData.(category := ToggleCategory(formData.category, name));
      if errors.category.Some? {
        errors := errors.(category := None);
      }
    }

    /** The user typed in the search box: the text becomes the manual location
        and any coordinates are dropped. */
    method HandleLocationSearchChange(text: string)
      modifies this`locationSearch, this`formData, this`errors
      ensures locationSearch == text
      ensures formData == old(formData).(manualLocation := text, coordinates := None)
      ensures errors == old(errors).(location := None)
    {
      locationSearch := text;
      formData := formData.(manualLocation := text, coordinates := None);
      if errors.location.Some? {
        errors := errors.(location := None);
      }
    }

    /** A search result was chosen. Returns the position handed to the map
        preview. */
    method HandleLocationSelect(result: Place) returns (preview: Coords)
      modifies this`locationSearch, this`formData, this`locationResults, this`errors
      ensures preview == Coords(result.lat, result.lon)
      ensures locationSearch == result.displayName
      ensures formData == old(formData).(manualLocation := result.displayName, coordinates := Some(preview))
      ensures locationResults == []
      ensures errors == old(errors).(location := None)
    {
      var coords := Coords(result.lat, result.lon);
      locationSearch := result.displayName;
      formData := formData.(manualLocation := result.displayName, coordinates := Some(coords));
      locationResults := [];
      if errors.location.Some? {
        errors := errors.(location := None);
      }
      preview := coords;
    }

    /** "Use My Current Location". Returns whether a position was requested:
        without browser geolocation the spinner is switched off again. The
        success callback is created here and keeps the errors of this render,
        so `clickErrors` is the snapshot it later consults. */
    method HandleUseCurrentLocation(supported: bool) returns (requested: bool, clickErrors: Errors)
      modifies this`isGettingLocation
      ensures requested == supported && isGettingLocation == supported
      ensures clickErrors == errors
    {
      clickErrors := errors;
      isGettingLocation := true;
      if supported {
        requested := true;
      } else {
        isGettingLocation := false;
        requested := false;
      }
    }

    /** The browser delivered a position. The location error is cleared only
        when the snapshot taken at the click had one: an error raised after
        the click (a submit while locating) stays. Returns the position handed
        to the map preview. */
    method OnPositionSuccess(coords: Coords, clickErrors: Errors) returns (preview: Coords)
      modifies this`formData, this`locationSearch, this`isGettingLocation, this`errors
      ensures formData == old(formData).(coordinates := Some(coords), manualLocation := CurrentLocationLabel)
      ensures locationSearch == CurrentLocationLabel && !isGettingLocation
      ensures errors == if clickErrors.location.Some? then old(errors).(location := None) else old(errors)
      ensures preview == coords
    {
      formData := formData.(coordinates := Some(coords), manualLocation := CurrentLocationLabel);
      locationSearch := CurrentLocationLabel;
      isGettingLocation := false;
      if clickErrors.location.Some? {
        errors := errors.(location := None);
      }
      preview := coords;
    }

    /** The browser reported an error: only the spinner stops; there is no
        fallback position in this panel. */
    method OnPositionError()
      modifies this`isGettingLocation
      ensures !isGettingLocation
    {
      isGettingLocation := false;
    }

    /** Submitting hands the form to the caller's handler exactly when the
        validator passes. */
    method HandleSubmit() returns (submitted: Option<SourceForm>)
      modifies this`errors
      ensures errors == SourceErrors(formData)
      ensures submitted.Some? <==> ReadyToSubmit(formData)
      ensures submitted.Some? ==> submitted.value == formData
    {
      var valid := ValidateForm();
      if valid {
        submitted := Some(formData);
      } else {
        submitted := None;
      }
    }
  }

  /** The initial form has no location, so its validation reports one missing. */
  lemma EmptyFormLacksLocation()
    ensures SourceErrors(InitialForm).location == Some(LocationRequired)
  {
    assert !HasLocation(InitialForm.coordinates, InitialForm.manualLocation);
  }

  /** A fresh panel: "Use My Current Location", then Submit before the
      position arrives, then the position arrives. The form now has a
      location, yet the location message raised by the submit stays on
      screen, because the callback consults the errors of the click. */
  method SubmitWhileLocating(coords: Coords) returns (panel: PinSourcePanel)
    ensures panel.formData.coordinates == Some(coords)
    ensures HasLocation(panel.formData.coordinates, panel.formData.manualLocation)
    ensures panel.errors.location == Some(LocationRequired)
  {
    panel := new PinSourcePanel();
    var requested, clickErrors := panel.HandleUseCurrentLocation(true);
    var submitted := panel.HandleSubmit();
    EmptyFormLacksLocation();
    var preview := panel.OnPositionSuccess(coords, clickErrors);
  }
}
