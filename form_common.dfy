/** What the two form panels (ask for help, pin a source) have in common:
    the error keys and shared messages of their validators, the category
    multi-select toggle, the contact-number check, the location requirement and
    the minimum length of a geocoding query. */
module FormCommon {
  import opened Wrappers
  import opened Seqs
  import opened Text
  import opened PhonePattern

  /** The keys a validator may put in its error object. */
  datatype ErrorKey = Title | Category | Description | FullName | ContactNumber | Location

  /** The error object shown under the fields, one optional message per key:
      `None` stands for a key never set as well as for one reset to `null`. */
  datatype Errors = Errors(
    title: Option<string>,
    category: Option<string>,
    description: Option<string>,
    fullName: Option<string>,
    contactNumber: Option<string>,
    location: Option<string>)
  {
    function Get(key: ErrorKey): Option<string> {
      match key
      case Title => title
      case Category => category
      case Description => description
      case FullName => fullName
      case ContactNumber => contactNumber
      case Location => location
    }

    /** `{ ...prev, [key]: null }`: the message under `key` is dropped and
        every other message stays. */
    function Clear(key: ErrorKey): (r: Errors)
      ensures r.Get(key).None?
      ensures forall other :: other != key ==> r.Get(other) == Get(other)
    {
      match key
      case Title => this.(title := None)
      case Category => this.(category := None)
      case Description => this.(description := None)
      case FullName => this.(fullName := None)
      case ContactNumber => this.(contactNumber := None)
      case Location => this.(location := None)
    }

    /** `Object.keys(newErrors).length === 0` for an object the validator built. */
    predicate IsEmpty() {
      forall key :: Get(key).None?
    }
  }

  const NoErrors := Errors(None, None, None, None, None, None)

  /** A latitude/longitude pair; the browser and the geocoder deliver them as
      floating-point numbers, kept here as exact reals. */
  datatype Coords = Coords(lat: real, lon: real)

  /** One forward-geocoding result: its display name and its position. */
  datatype Place = Place(displayName: string, lat: real, lon: real)

  const CategoryRequired := "Please select at least one category."
  const FullNameRequired := "Full name is required."
  const ContactRequired := "Contact number is required."
  const LocationRequired := "Please set a location by search or using your current location."

  /** The shortest trimmed search text for which the panels query the geocoder. */
  const MinSearchLength := 3

  /** The search effect's gate, `query.trim().length >= 3`: a query whose
      trimmed text is shorter than `MinSearchLength` UTF-16 code units clears
      the results and schedules no fetch. Three characters always qualify, one
      never does, and two qualify exactly when one of them lies outside the
      Basic Multilingual Plane. */
  predicate SearchQualifies(query: string)
    ensures |Trim(query)| >= MinSearchLength ==> SearchQualifies(query)
    ensures SearchQualifies(query) ==> |Trim(query)| >= 2
    ensures (forall i :: 0 <= i < |query| ==> (query[i] as int) < 0x1_0000) ==>
      (SearchQualifies(query) <==> |Trim(query)| >= MinSearchLength)
    ensures |Trim(query)| == 2 ==>
      (SearchQualifies(query) <==> (Trim(query)[0] as int) >= 0x1_0000 || (Trim(query)[1] as int) >= 0x1_0000)
  {
    TrimKeepsBmp(query);
    Utf16Pair(Trim(query));
    Utf16Length(Trim(query)) >= MinSearchLength
  }

  /** Trimming a query of Basic Multilingual Plane characters leaves only
      such characters. */
  lemma TrimKeepsBmp(query: string)
    ensures (forall i :: 0 <= i < |query| ==> (query[i] as int) < 0x1_0000) ==>
      forall i :: 0 <= i < |Trim(query)| ==> (Trim(query)[i] as int) < 0x1_0000
  {
    var t := Trim(query);
    var k := |query| - |TrimStart(query)|;
    forall i | 0 <= i < |t| ensures t[i] == query[k + i] {
      assert t == query[k..k + |t|];
    }
  }

  /** `.length` of two characters is the sum of their lengths. */
  lemma Utf16Pair(t: string)
    ensures |t| == 2 ==> Utf16Length(t) == Utf16Length([t[0]]) + Utf16Length([t[1]])
  {
    if |t| == 2 {
      assert t == [t[0]] + [t[1]];
      Utf16Concat([t[0]], [t[1]]);
    }
  }

  /** Two emoji are four UTF-16 code units, so they are searched for. */
  lemma TwoEmojiQualify()
    ensures SearchQualifies("\U{1F600}\U{1F600}")
  {
    EmojiPairUntrimmed();
    EmojiPairLength();
  }

  lemma EmojiPairUntrimmed()
    ensures Trim("\U{1F600}\U{1F600}") == "\U{1F600}\U{1F600}"
  {
    var q := "\U{1F600}\U{1F600}";
    assert !IsWhitespace(q[0]) && !IsWhitespace(q[1]);
    assert TrimStart(q) == q;
    assert TrimEnd(q) == q;
  }

  lemma EmojiPairLength()
    ensures Utf16Length("\U{1F600}\U{1F600}") == 4
  {
    var q := "\U{1F600}\U{1F600}";
    assert q[0] as int >= 0x1_0000;
    assert q[1..] == "\U{1F600}";
  }

  /** Two letters are two UTF-16 code units, so they are not searched for. */
  lemma TwoLettersDoNotQualify()
    ensures !SearchQualifies("ab")
  {
    var q := "ab";
    assert !IsWhitespace(q[0]) && !IsWhitespace(q[1]);
    assert TrimStart(q) == q;
    assert TrimEnd(q) == q;
    assert q[1..] == "b";
  }

  /** The category multi-select: a selected category is removed (every copy
      of it), an unselected one is appended at the end. */
  function ToggleCategory(selected: seq<string>, name: string): (r: seq<string>)
    ensures forall x :: x in r <==> (x in selected && x != name) || (x == name && name !in selected)
    ensures name !in selected ==> r == selected + [name]
    ensures name in selected ==> IsSubsequence(r, selected) && |r| < |selected|
    ensures NoDuplicates(selected) ==> NoDuplicates(r)
  {
    if name in selected then
      var r := Filter(selected, c => c != name);
      var i :| 0 <= i < |selected| && selected[i] == name;
      assert name !in r;
      RemovalShortens(r, selected, i);
      r
    else
      selected + [name]
  }

  /** A subsequence that misses an element of `xs` is strictly shorter than `xs`. */
  lemma {:induction false} RemovalShortens(r: seq<string>, xs: seq<string>, i: nat)
    requires IsSubsequence(r, xs) && i < |xs| && xs[i] !in r
    ensures |r| < |xs|
  {
    if r != [] {
      if r[0] == xs[0] && IsSubsequence(r[1..], xs[1..]) {
        assert i != 0;
        RemovalShortens(r[1..], xs[1..], i - 1);
      } else {
        SubsequenceShorter(r, xs[1..]);
      }
    }
  }

  lemma {:induction false} SubsequenceShorter(r: seq<string>, xs: seq<string>)
    requires IsSubsequence(r, xs)
    ensures |r| <= |xs|
  {
    if r != [] {
      if r[0] == xs[0] && IsSubsequence(r[1..], xs[1..]) {
        SubsequenceShorter(r[1..], xs[1..]);
      } else {
        SubsequenceShorter(r, xs[1..]);
      }
    }
  }

  /** Toggling the same category twice restores the selection as a set. When
      the category was not selected, the order is restored too; when it was
      selected (once), it comes back at the end of the list. */
  lemma ToggleTwice(selected: seq<string>, name: string)
    ensures forall x :: x in ToggleCategory(ToggleCategory(selected, name), name) <==> x in selected
    ensures name !in selected ==> ToggleCategory(ToggleCategory(selected, name), name) == selected
    ensures name in selected && NoDuplicates(selected) ==>
      ToggleCategory(ToggleCategory(selected, name), name) == ToggleCategory(selected, name) + [name]
  {
    if name !in selected {
      var once := selected + [name];
      FilterConcat(selected, [name], c => c != name);
      FilterKeepsAll(selected, c => c != name);
      assert Filter([name], c => c != name) == [];
    }
  }

  /** The contact-number check both validators run: a blank number is
      "required", a non-blank one whose trimmed text fails the pattern gets
      `invalidMessage`. No error exactly when the trimmed number matches. */
  function ContactNumberError(contact: string, invalidMessage: string): (e: Option<string>)
    ensures e.None? <==> Matches(Trim(contact))
    ensures IsBlank(contact) ==> e == Some(ContactRequired)
    ensures !IsBlank(contact) && !Matches(Trim(contact)) ==> e == Some(invalidMessage)
  {
    BlankIffTrimEmpty(contact);
    if IsBlank(contact) then Some(ContactRequired)
    else if !Matches(Trim(contact)) then Some(invalidMessage)
    else None
  }

  /** `formData.coordinates || formData.manualLocation.trim()`: a location is set
      by coordinates or by non-blank text. */
  predicate HasLocation(coordinates: Option<Coords>, manualLocation: string)
    ensures HasLocation(coordinates, manualLocation) <==> coordinates.Some? || Trim(manualLocation) != ""
  {
    BlankIffTrimEmpty(manualLocation);
    coordinates.Some? || !IsBlank(manualLocation)
  }
}
