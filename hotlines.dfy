/** The emergency-hotline directory: the category dropdown, the
    filter pipeline (category selection, contact-name search, dropping
    categories left empty) and the `tel:` target of a displayed number. */
module Hotlines {
  import opened Seqs
  import opened Text

  datatype Contact = Contact(name: string, number: string)

  datatype Category = Category(name: string, contacts: seq<Contact>)

  /** The dropdown entry that selects every category. */
  const AllLabel := "All"

  /** The dropdown options: "All", then every category name in data order. */
  function CategoryOptions(categories: seq<Category>): (options: seq<string>)
    ensures |options| == |categories| + 1 && options[0] == AllLabel
    ensures forall i :: 0 <= i < |categories| ==> options[i + 1] == categories[i].name
  {
    [AllLabel] + seq(|categories|, i requires 0 <= i < |categories| => categories[i].name)
  }

  /** The first filter: the category is the selected one, or everything is selected. */
  predicate IsSelected(selection: string, category: Category) {
    selection == AllLabel || category.name == selection
  }

  /** The contact's lower-cased name contains the lower-cased search term. */
  predicate NameMatches(term: string, contact: Contact) {
    Contains(ToLower(contact.name), ToLower(term))
  }

  /** The first filter: the selected categories, in data order. */
  function SelectCategories(categories: seq<Category>, selection: string): seq<Category> {
    Filter(categories, c => IsSelected(selection, c))
  }

  /** The contacts whose name matches the term, in data order. */
  function MatchingContacts(term: string, contacts: seq<Contact>): seq<Contact> {
    Filter(contacts, c => NameMatches(term, c))
  }

  /** The map step: the category with only its matching contacts. */
  function Narrow(term: string, category: Category): Category {
    category.(contacts := MatchingContacts(term, category.contacts))
  }

  /** `.map(category => ({ ...category, contacts: filteredContacts }))`. */
  function NarrowAll(term: string, categories: seq<Category>): (r: seq<Category>)
    ensures |r| == |categories|
    ensures forall i :: 0 <= i < |r| ==> r[i] == Narrow(term, categories[i])
  {
    seq(|categories|, i requires 0 <= i < |categories| => Narrow(term, categories[i]))
  }

  predicate HasContacts(category: Category) {
    |category.contacts| > 0
  }

  /** `filteredCategories`: select, narrow, then drop the empty categories.
      Every shown category is a selected one, is not empty, and shows only
      contacts whose name matches the term. */
  function FilteredCategories(categories: seq<Category>, selection: string, term: string): (r: seq<Category>)
    ensures forall k :: 0 <= k < |r| ==>
      && IsSelected(selection, r[k])
      && |r[k].contacts| > 0
      && (forall j :: 0 <= j < |r[k].contacts| ==> NameMatches(term, r[k].contacts[j]))
  {
    PipelineMatches(categories, selection, term);
    Filter(NarrowAll(term, SelectCategories(categories, selection)), HasContacts)
  }

  /** The three stages of `FilteredCategories` keep only selected, non-empty
      categories of matching contacts. */
  lemma PipelineMatches(categories: seq<Category>, selection: string, term: string)
    ensures var r := Filter(NarrowAll(term, SelectCategories(categories, selection)), HasContacts);
      forall k :: 0 <= k < |r| ==>
        && IsSelected(selection, r[k])
        && |r[k].contacts| > 0
        && (forall j :: 0 <= j < |r[k].contacts| ==> NameMatches(term, r[k].contacts[j]))
  {
    var selected := SelectCategories(categories, selection);
    var narrowed := NarrowAll(term, selected);
    var r := Filter(narrowed, HasContacts);
    forall k | 0 <= k < |r|
      ensures IsSelected(selection, r[k]) && |r[k].contacts| > 0
      ensures forall j :: 0 <= j < |r[k].contacts| ==> NameMatches(term, r[k].contacts[j])
    {
      var i :| 0 <= i < |narrowed| && narrowed[i] == r[k];
      assert IsSelected(selection, selected[i]);
      NarrowMatches(term, selected[i]);
    }
  }

  /** A narrowed category shows only matching contacts. */
  lemma NarrowMatches(term: string, category: Category)
    ensures var shown := Narrow(term, category);
      shown.name == category.name &&
      forall j :: 0 <= j < |shown.contacts| ==> NameMatches(term, shown.contacts[j])
  {
    var shown := Narrow(term, category);
    forall j | 0 <= j < |shown.contacts| ensures NameMatches(term, shown.contacts[j]) {
      assert shown.contacts[j] in MatchingContacts(term, category.contacts);
    }
  }

  /** `shown` is `category` with some of its contacts left out, the rest
      unchanged and in order. */
  predicate Narrows(shown: Category, category: Category) {
    shown.name == category.name && IsSubsequence(shown.contacts, category.contacts)
  }

  /** `r` is obtained from `xs` by deleting categories and narrowing the rest,
      order kept. */
  predicate Embeds(r: seq<Category>, xs: seq<Category>)
    decreases |xs|
  {
    if r == [] then true
    else if xs == [] then false
    else (Narrows(r[0], xs[0]) && Embeds(r[1..], xs[1..])) || Embeds(r, xs[1..])
  }

  /** The selected categories are exactly the input categories that pass the
      first filter. */
  lemma SelectedMembers(categories: seq<Category>, selection: string, c: Category)
    ensures c in SelectCategories(categories, selection) <==> c in categories && IsSelected(selection, c)
  {
  }

  /** A narrowed category comes from a selected input category. */
  lemma NarrowedFromInput(categories: seq<Category>, selection: string, term: string, k: int)
    requires 0 <= k < |NarrowAll(term, SelectCategories(categories, selection))|
    ensures exists i ::
      && 0 <= i < |categories| && IsSelected(selection, categories[i])
      && NarrowAll(term, SelectCategories(categories, selection))[k] == Narrow(term, categories[i])
  {
  }

  /** Every selected input category is narrowed. */
  lemma InputNarrowed(categories: seq<Category>, selection: string, term: string, i: int)
    requires 0 <= i < |categories| && IsSelected(selection, categories[i])
    ensures Narrow(term, categories[i]) in NarrowAll(term, SelectCategories(categories, selection))
  {
  }

  /** A category is shown exactly when it is a selected category narrowed
      to its matching contacts and at least one contact matched. */
  lemma ResultsComplete(categories: seq<Category>, selection: string, term: string, shown: Category)
    ensures shown in FilteredCategories(categories, selection, term) <==>
      exists i :: 0 <= i < |categories| && IsSelected(selection, categories[i]) &&
        shown == Narrow(term, categories[i]) && HasContacts(shown)
  {
    var narrowed := NarrowAll(term, SelectCategories(categories, selection));
    var r := Filter(narrowed, HasContacts);
    if shown in r {
      var m :| 0 <= m < |narrowed| && narrowed[m] == shown;
      NarrowedFromInput(categories, selection, term, m);
    } else {
      forall i | 0 <= i < |categories| && IsSelected(selection, categories[i]) && HasContacts(Narrow(term, categories[i]))
        ensures shown != Narrow(term, categories[i])
      {
        InputNarrowed(categories, selection, term, i);
      }
    }
  }

  /** `noResults`: "No contacts found" shows exactly when no selected
      category has a contact whose name matches the term. */
  predicate NoResults(categories: seq<Category>, selection: string, term: string)
    ensures NoResults(categories, selection, term) <==>
      forall i, j :: (0 <= i < |categories| && IsSelected(selection, categories[i]) &&
        0 <= j < |categories[i].contacts|) ==> !NameMatches(term, categories[i].contacts[j])
  {
    var r := FilteredCategories(categories, selection, term);
    assert |r| == 0 <==>
      forall i, j :: (0 <= i < |categories| && IsSelected(selection, categories[i]) &&
        0 <= j < |categories[i].contacts|) ==> !NameMatches(term, categories[i].contacts[j])
    by {
      if |r| != 0 {
        ResultsComplete(categories, selection, term, r[0]);
        var i :| 0 <= i < |categories| && IsSelected(selection, categories[i]) &&
          r[0] == Narrow(term, categories[i]) && HasContacts(r[0]);
        var c := r[0].contacts[0];
        assert c in categories[i].contacts && NameMatches(term, c);
      } else {
        forall i, j | 0 <= i < |categories| && IsSelected(selection, categories[i]) &&
          0 <= j < |categories[i].contacts|
          ensures !NameMatches(term, categories[i].contacts[j])
        {
          if NameMatches(term, categories[i].contacts[j]) {
            var shown := Narrow(term, categories[i]);
            assert categories[i].contacts[j] in shown.contacts;
            ResultsComplete(categories, selection, term, shown);
          }
        }
      }
    }
    |r| == 0
  }

  /** The result keeps the input's order, and each shown category keeps its
      name and a subsequence of its contacts, themselves unchanged. */
  lemma {:induction false} ResultsEmbed(categories: seq<Category>, selection: string, term: string)
    ensures Embeds(FilteredCategories(categories, selection, term), categories)
  {
    if categories != [] {
      var c := categories[0];
      var rest := categories[1..];
      var tail := FilteredCategories(rest, selection, term);
      ResultsEmbed(rest, selection, term);
      var head := if IsSelected(selection, c) then [c] else [];
      assert SelectCategories(categories, selection) == head + SelectCategories(rest, selection);
      NarrowAllConcat(term, head, SelectCategories(rest, selection));
      FilterConcat(NarrowAll(term, head), NarrowAll(term, SelectCategories(rest, selection)), HasContacts);
      var shownHead := Filter(NarrowAll(term, head), HasContacts);
      assert FilteredCategories(categories, selection, term) == shownHead + tail;
      if shownHead == [] {
        EmbedsSkip(tail, c, rest);
      } else {
        assert shownHead == [Narrow(term, c)];
        assert Narrows(Narrow(term, c), c);
        assert ([Narrow(term, c)] + tail)[1..] == tail;
      }
    }
  }

  /** Narrowing distributes over concatenation. */
  lemma NarrowAllConcat(term: string, a: seq<Category>, b: seq<Category>)
    ensures NarrowAll(term, a + b) == NarrowAll(term, a) + NarrowAll(term, b)
  {
  }

  /** Prepending a category to the input keeps an embedding. */
  lemma EmbedsSkip(r: seq<Category>, c: Category, xs: seq<Category>)
    requires Embeds(r, xs)
    ensures Embeds(r, [c] + xs)
  {
  }

  /** With "All" selected and an empty search, the directory shows exactly the
      categories that have contacts, unchanged and in order. */
  lemma AllWithEmptyTerm(categories: seq<Category>)
    ensures FilteredCategories(categories, AllLabel, "") == Filter(categories, HasContacts)
  {
    FilterKeepsAll(categories, c => IsSelected(AllLabel, c));
    forall c: Category ensures Narrow("", c) == c {
      forall j | 0 <= j < |c.contacts| ensures NameMatches("", c.contacts[j]) {
        assert OccursAt(ToLower(c.contacts[j].name), ToLower(""), 0);
      }
      FilterKeepsAll(c.contacts, x => NameMatches("", x));
    }
    assert NarrowAll("", categories) == categories;
  }

  /** A character kept in a `tel:` link: a digit or `+`. */
  predicate IsDialable(c: char) {
    '0' <= c <= '9' || c == '+'
  }

  /** `s.split('/')[0]`: the text before the first `/`, or all of `s`. */
  function BeforeFirstSlash(s: string): (r: string)
    ensures r <= s && '/' !in r
    ensures |r| < |s| ==> s[|r|] == '/'
  {
    if s == [] || s[0] == '/' then []
    else [s[0]] + BeforeFirstSlash(s[1..])
  }

  /** The `tel:` target of a displayed number: the first of its `/`-separated
      alternatives with everything but digits and `+` removed. It keeps, in
      order, exactly the dialable characters that come before the first `/`. */
  function TelTarget(number: string): (target: string)
    ensures forall i :: 0 <= i < |target| ==> IsDialable(target[i])
    ensures IsSubsequence(target, number)
    ensures forall i :: 0 <= i < |BeforeFirstSlash(number)| && IsDialable(number[i]) ==> number[i] in target
    ensures '/' !in number ==> target == Filter(number, IsDialable)
  {
    var before := BeforeFirstSlash(number);
    var target := Filter(before, IsDialable);
    assert IsSubsequence(target, number) by {
      PrefixIsSubsequence(number, |before|);
      assert number[..|before|] == before;
      SubsequenceTransitive(target, before, number);
    }
    assert forall i :: 0 <= i < |before| ==> number[i] == before[i];
    assert '/' !in number ==> before == number;
    target
  }

  /** Only the first of several `/`-separated alternatives is dialled. */
  lemma TelTargetFirstAlternative(first: string, others: string)
    requires '/' !in first
    ensures TelTarget(first + "/" + others) == Filter(first, IsDialable)
  {
    var number := first + "/" + others;
    assert number == first + ("/" + others);
    assert BeforeFirstSlash(number) == first by {
      BeforeFirstOfJoin(first, "/" + others);
      BeforeSlashAtSlash(others);
      assert first + [] == first;
    }
    assert TelTarget(number) == Filter(BeforeFirstSlash(number), IsDialable);
  }

  /** Separators other than `/` (dashes, spaces, parentheses) are dropped
      and the digits around them are joined. */
  lemma TelTargetDropsSeparator(before: string, separator: char, after: string)
    requires '/' !in before && separator != '/' && !IsDialable(separator)
    ensures TelTarget(before + [separator] + after) == TelTarget(before) + TelTarget(after)
  {
    var tail := BeforeFirstSlash(after);
    assert BeforeFirstSlash(before + [separator] + after) == before + [separator] + tail by {
      BeforeFirstOfJoin(before + [separator], after);
    }
    assert BeforeFirstSlash(before) == before by {
      BeforeFirstOfJoin(before, []);
      assert before + [] == before;
    }
    assert Filter(before + [separator], IsDialable) == Filter(before, IsDialable) by {
      FilterConcat(before, [separator], IsDialable);
    }
    FilterConcat(before + [separator], tail, IsDialable);
  }

  lemma BeforeSlashAtSlash(others: string)
    ensures BeforeFirstSlash("/" + others) == []
  {
  }

  /** The text before the first `/` of a joined string whose first part has
      no `/` extends that part. */
  lemma {:induction false} BeforeFirstOfJoin(first: string, rest: string)
    requires '/' !in first
    ensures BeforeFirstSlash(first + rest) == first + BeforeFirstSlash(rest)
  {
    if first != [] {
      assert (first + rest)[1..] == first[1..] + rest;
      BeforeFirstOfJoin(first[1..], rest);
    } else {
      assert first + rest == rest;
    }
  }
}
