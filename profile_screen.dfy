/**
 * The healthcare profile manager: the profile validator, the form's submit, and the
 * manager's upsert, delete, search and pagination. A profile is its id and its text
 * fields; a field that is not in the map is `undefined`.
 */
module ProfileScreen {
  import opened Options
  import opened JsText
  import opened JsArray

  datatype Profile = Profile(id: string, fields: map<string, string>)

  /** The field is truthy: present and not empty. */
  predicate Given(p: Profile, key: string) {
    key in p.fields && p.fields[key] != ""
  }

  /** `(p[key] || "")`. */
  function Text(p: Profile, key: string): string {
    if key in p.fields then p.fields[key] else ""
  }

  // ---------------------------------------------------------------------------
  // The two patterns of the validator
  // ---------------------------------------------------------------------------

  /** A character of the class `[0-9\- ]`. */
  predicate PhoneChar(c: char) {
    '0' <= c <= '9' || c == '-' || c == ' '
  }

  predicate AllPhoneChars(s: string) {
    forall i :: 0 <= i < |s| ==> PhoneChar(s[i])
  }

  /** `s` is an optional "+" (the first `k` characters) followed by 7 or more phone characters. */
  predicate PhoneSplit(s: string, k: int) {
    0 <= k <= 1 && k <= |s| && (k == 1 ==> s[0] == '+') && |s| - k >= 7 && AllPhoneChars(s[k..])
  }

  /** The strings `/^\+?[0-9\- ]{7,}$/` accepts. */
  ghost predicate PhonePattern(s: string) {
    exists k :: PhoneSplit(s, k)
  }

  /** The matcher: drop one leading "+", then demand 7 or more phone characters. */
  function PhoneMatches(s: string): bool {
    var digits := if |s| > 0 && s[0] == '+' then s[1..] else s;
    |digits| >= 7 && AllPhoneChars(digits)
  }

  lemma PhoneMatchesPattern(s: string)
    ensures PhoneMatches(s) <==> PhonePattern(s)
  {
    if |s| > 0 && s[0] == '+' {
      if PhoneMatches(s) {
        assert PhoneSplit(s, 1);
      }
      if PhonePattern(s) {
        var k :| PhoneSplit(s, k);
        if k == 0 {
          assert false;
        }
      }
    } else {
      if PhoneMatches(s) {
        assert s[0..] == s;
        assert PhoneSplit(s, 0);
      }
      if PhonePattern(s) {
        var k :| PhoneSplit(s, k);
        assert k == 0;
        assert s[0..] == s;
      }
    }
  }

  /** `s` is `local + "@" + domain + "." + top` with three non-empty parts free of `\s`. */
  ghost predicate EmailParts(s: string, local: string, domain: string, top: string) {
    && s == local + "@" + domain + "." + top
    && local != "" && domain != "" && top != ""
    && NoWhitespace(local) && NoWhitespace(domain) && NoWhitespace(top)
  }

  /** The strings `/^\S+@\S+\.\S+$/` accepts. */
  ghost predicate EmailPattern(s: string) {
    exists local, domain, top :: EmailParts(s, local, domain, top)
  }

  /** An "@" at `at` and a "." at `dot` with at least one character before, between and after. */
  predicate EmailMarks(s: string, at: int, dot: int) {
    0 < at && at + 1 < dot && dot + 1 < |s| && s[at] == '@' && s[dot] == '.'
  }

  /** Some "." after the "@" at `at` completes the marks. */
  predicate DotAfter(s: string, at: int) {
    exists dot | at < dot < |s| :: EmailMarks(s, at, dot)
  }

  /** The matcher: no whitespace anywhere, and an "@" followed later by a "." as above. */
  function EmailMatches(s: string): bool {
    NoWhitespace(s) && exists at | 0 < at < |s| :: DotAfter(s, at)
  }

  lemma EmailMatchesPattern(s: string)
    ensures EmailMatches(s) <==> EmailPattern(s)
  {
    if EmailMatches(s) {
      var at :| 0 < at < |s| && DotAfter(s, at);
      var dot :| at < dot < |s| && EmailMarks(s, at, dot);
      var local, domain, top := s[..at], s[at + 1..dot], s[dot + 1..];
      assert s == local + "@" + domain + "." + top;
      assert EmailParts(s, local, domain, top);
    }
    if EmailPattern(s) {
      var local, domain, top :| EmailParts(s, local, domain, top);
      var at := |local|;
      var dot := |local| + 1 + |domain|;
      assert s[at] == '@' && s[dot] == '.';
      assert EmailMarks(s, at, dot);
      assert DotAfter(s, at);
      forall i | 0 <= i < |s| ensures !IsWhitespace(s[i]) {
        if i < at {
          assert s[i] == local[i];
        } else if at < i < dot {
          assert s[i] == domain[i - at - 1];
        } else if dot < i {
          assert s[i] == top[i - dot - 1];
        }
      }
    }
  }

  // ---------------------------------------------------------------------------
  // validate and submit
  // ---------------------------------------------------------------------------

  /** The rules of `validate`, field by field. */
  ghost predicate FirstNameBad(p: Profile) { !Given(p, "firstName") || Utf16Length(Trim(p.fields["firstName"])) < 2 }
  ghost predicate LastNameBad(p: Profile) { !Given(p, "lastName") || |Trim(p.fields["lastName"])| < 1 }
  ghost predicate DobBad(p: Profile) { !Given(p, "dob") }
  ghost predicate PhoneBad(p: Profile) { !Given(p, "phone") || !PhonePattern(p.fields["phone"]) }
  ghost predicate EmailBad(p: Profile) { Given(p, "email") && !EmailPattern(p.fields["email"]) }

  ghost predicate ProfileValid(p: Profile) {
    !FirstNameBad(p) && !LastNameBad(p) && !DobBad(p) && !PhoneBad(p) && !EmailBad(p)
  }

  /** `validate(profile)`: the `errors` object, filled one rule at a time. */
  method Validate(p: Profile) returns (errors: map<string, string>)
    ensures "firstName" in errors <==> FirstNameBad(p)
    ensures "lastName" in errors <==> LastNameBad(p)
    ensures "dob" in errors <==> DobBad(p)
    ensures "phone" in errors <==> PhoneBad(p)
    ensures "email" in errors <==> EmailBad(p)
    ensures errors.Keys <= {"firstName", "lastName", "dob", "phone", "email"}
    ensures errors == map[] <==> ProfileValid(p)
    ensures "firstName" in errors ==> errors["firstName"] == "First name required"
    ensures "lastName" in errors ==> errors["lastName"] == "Last name required"
    ensures "dob" in errors ==> errors["dob"] == "Date of birth required"
    ensures "phone" in errors ==> errors["phone"] == "Valid phone required"
    ensures "email" in errors ==> errors["email"] == "Invalid email"
  {
    errors := map[];
    if !Given(p, "firstName") || Utf16Length(Trim(p.fields["firstName"])) < 2 {
      errors := errors["firstName" := "First name required"];
    }
    assert errors.Keys <= {"firstName"} && ("firstName" in errors <==> FirstNameBad(p));
    if !Given(p, "lastName") || |Trim(p.fields["lastName"])| < 1 {
      errors := errors["lastName" := "Last name required"];
    }
    assert errors.Keys <= {"firstName", "lastName"} && ("lastName" in errors <==> LastNameBad(p));
    if !Given(p, "dob") {
      errors := errors["dob" := "Date of birth required"];
    }
    assert errors.Keys <= {"firstName", "lastName", "dob"} && ("dob" in errors <==> DobBad(p));
    if Given(p, "phone") {
      PhoneMatchesPattern(p.fields["phone"]);
    }
    if !Given(p, "phone") || !PhoneMatches(p.fields["phone"]) {
      errors := errors["phone" := "Valid phone required"];
    }
    assert errors.Keys <= {"firstName", "lastName", "dob", "phone"} && ("phone" in errors <==> PhoneBad(p));
    if Given(p, "email") {
      EmailMatchesPattern(p.fields["email"]);
    }
    if Given(p, "email") && !EmailMatches(p.fields["email"]) {
      errors := errors["email" := "Invalid email"];
    }
  }

  /** The form's `submit`: the profile stamped with `updatedAt` is saved only when it is valid. */
  method Submit(p: Profile, now: string) returns (errors: map<string, string>, saved: Option<Profile>)
    ensures saved.Some? <==> ProfileValid(p)
    ensures saved.Some? ==> saved.value == Profile(p.id, p.fields["updatedAt" := now])
    ensures saved.None? ==> errors != map[]
  {
    errors := Validate(p);
    if |errors| > 0 {
      return errors, None;
    }
    saved := Some(Profile(p.id, p.fields["updatedAt" := now]));
  }

  lemma SampleNamesTrimmed()
    ensures Utf16Length(Trim("Al")) == 2 && Utf16Length(Trim("Li")) == 2
  {
    assert LeadingWhitespace("Al") == 0 && TrailingWhitespace("Al") == 0;
    assert LeadingWhitespace("Li") == 0 && TrailingWhitespace("Li") == 0;
  }

  /** A lone emoji is two code units, so it passes the first-name length check. */
  lemma EmojiFirstName(p: Profile)
    requires "firstName" in p.fields && p.fields["firstName"] == "\U{1F600}"
    ensures !FirstNameBad(p)
  {
    assert LeadingWhitespace("\U{1F600}") == 0 && TrailingWhitespace("\U{1F600}") == 0;
    AstralCountsTwice();
  }

  lemma SampleContactMatches()
    ensures PhonePattern("+1234567") && EmailPattern("a@b.co")
  {
    assert PhoneSplit("+1234567", 1);
    assert EmailParts("a@b.co", "a", "b", "co");
  }

  /** A complete profile passes the validator. */
  lemma SampleProfileValid()
    ensures ProfileValid(Profile("p1", map["firstName" := "Al", "lastName" := "Li", "dob" := "1989-04-12",
                                           "phone" := "+1234567", "email" := "a@b.co"]))
  {
    SampleNamesTrimmed();
    SampleContactMatches();
  }

  // ---------------------------------------------------------------------------
  // Upsert and delete
  // ---------------------------------------------------------------------------

  /** `{ ...x, ...profile }`: the saved fields win, the others are kept. */
  function Merge(x: Profile, p: Profile): (m: Profile)
    ensures m.id == x.id
    ensures forall key :: key in p.fields ==> key in m.fields && m.fields[key] == p.fields[key]
    ensures forall key :: key in x.fields && key !in p.fields ==> key in m.fields && m.fields[key] == x.fields[key]
    ensures m.fields.Keys == x.fields.Keys + p.fields.Keys
  {
    Profile(x.id, x.fields + p.fields)
  }

  predicate HasId(ps: seq<Profile>, id: string) {
    exists i :: 0 <= i < |ps| && ps[i].id == id
  }

  /** `handleSave`'s update: merge into every profile with that id, or put it first. */
  function Saved(ps: seq<Profile>, p: Profile): (r: seq<Profile>)
    ensures HasId(ps, p.id) ==> |r| == |ps|
    ensures HasId(ps, p.id) ==> forall i :: 0 <= i < |ps| && ps[i].id != p.id ==> r[i] == ps[i]
    ensures HasId(ps, p.id) ==> forall i :: 0 <= i < |ps| && ps[i].id == p.id ==> r[i] == Merge(ps[i], p)
    ensures !HasId(ps, p.id) ==> |r| == |ps| + 1 && r[0] == p && r[1..] == ps
  {
    if HasId(ps, p.id) then
      seq(|ps|, i requires 0 <= i < |ps| => if ps[i].id == p.id then Merge(ps[i], p) else ps[i])
    else [p] + ps
  }

  /** Saving the same profile twice is the same as saving it once. */
  lemma SaveIdempotent(ps: seq<Profile>, p: Profile)
    ensures Saved(Saved(ps, p), p) == Saved(ps, p)
  {
    var once := Saved(ps, p);
    assert HasId(once, p.id) by {
      if HasId(ps, p.id) {
        var i :| 0 <= i < |ps| && ps[i].id == p.id;
        assert once[i].id == p.id;
      } else {
        assert once[0].id == p.id;
      }
    }
    var twice := Saved(once, p);
    forall i | 0 <= i < |once| ensures twice[i] == once[i] {
      if once[i].id == p.id {
        if HasId(ps, p.id) {
          assert once[i] == Merge(ps[i], p);
        } else if i == 0 {
          assert once[i] == p;
          assert p.fields + p.fields == p.fields;
        } else {
          assert false;
        }
        assert once[i].fields + p.fields == once[i].fields;
      }
    }
  }

  /** After a save, some profile carries the saved id and every saved field. */
  lemma SavedContains(ps: seq<Profile>, p: Profile)
    ensures exists i :: 0 <= i < |Saved(ps, p)| && Saved(ps, p)[i].id == p.id
                        && p.fields.Items <= Saved(ps, p)[i].fields.Items
  {
    var r := Saved(ps, p);
    if HasId(ps, p.id) {
      var i :| 0 <= i < |ps| && ps[i].id == p.id;
      assert r[i] == Merge(ps[i], p);
      assert p.fields.Items <= r[i].fields.Items;
    } else {
      assert r[0] == p;
    }
  }

  function IdIsNot(id: string): Profile -> bool {
    (x: Profile) => x.id != id
  }

  /** `handleDelete`'s update: every profile with that id goes, the rest keep their order. */
  function Deleted(ps: seq<Profile>, id: string): (r: seq<Profile>)
    ensures forall x :: x in r <==> x in ps && x.id != id
  {
    DeletedMembers(ps, id);
    Filter(ps, IdIsNot(id))
  }

  lemma DeletedMembers(ps: seq<Profile>, id: string)
    ensures forall x :: x in Filter(ps, IdIsNot(id)) <==> x in ps && x.id != id
  {
    forall x | x in ps && x.id != id ensures x in Filter(ps, IdIsNot(id)) {
      FilterKeeps(ps, IdIsNot(id), x);
    }
  }

  /** Deleting distributes over concatenation, so the survivors keep their relative order. */
  lemma DeletedInOrder(a: seq<Profile>, b: seq<Profile>, id: string)
    ensures Deleted(a + b, id) == Deleted(a, id) + Deleted(b, id)
  {
    FilterAppend(a, b, IdIsNot(id));
  }

  /** Deleting an id that is not there changes nothing. */
  lemma DeleteAbsent(ps: seq<Profile>, id: string)
    requires !HasId(ps, id)
    ensures Deleted(ps, id) == ps
  {
    FilterAll(ps, IdIsNot(id));
  }

  // ---------------------------------------------------------------------------
  // Search
  // ---------------------------------------------------------------------------

  /** The six searched fields. */
  const SearchFields: seq<string> := ["firstName", "lastName", "phone", "email", "conditions", "allergies"]

  /** `query.trim().toLowerCase()`. */
  function SearchKey(query: string): string {
    ToLower(Trim(query))
  }

  /** Some searched field, lower-cased, contains `q`. */
  ghost predicate Mentions(p: Profile, q: string) {
    exists k :: 0 <= k < |SearchFields| && Occurs(ToLower(Text(p, SearchFields[k])), q)
  }

  function MatchesKey(q: string): Profile -> bool {
    (p: Profile) => exists k | 0 <= k < |SearchFields| :: Includes(ToLower(Text(p, SearchFields[k])), q)
  }

  /** `filtered`: everything for a blank query, else the profiles that mention it. */
  function Filtered(ps: seq<Profile>, query: string): (r: seq<Profile>)
    ensures SearchKey(query) == "" ==> r == ps
    ensures SearchKey(query) != "" ==> forall x :: x in r <==> x in ps && Mentions(x, SearchKey(query))
  {
    var q := SearchKey(query);
    if q == "" then ps
    else
      FilteredMembers(ps, q);
      Filter(ps, MatchesKey(q))
  }

  lemma FilteredMembers(ps: seq<Profile>, q: string)
    ensures forall x :: x in Filter(ps, MatchesKey(q)) <==> x in ps && Mentions(x, q)
  {
    forall x | x in ps && Mentions(x, q) ensures x in Filter(ps, MatchesKey(q)) {
      var k :| 0 <= k < |SearchFields| && Occurs(ToLower(Text(x, SearchFields[k])), q);
      assert Includes(ToLower(Text(x, SearchFields[k])), q);
      FilterKeeps(ps, MatchesKey(q), x);
    }
    forall x | x in Filter(ps, MatchesKey(q)) ensures Mentions(x, q) {
      var k :| 0 <= k < |SearchFields| && Includes(ToLower(Text(x, SearchFields[k])), q);
    }
  }

  /** The search keeps the profiles' relative order. */
  lemma FilteredInOrder(a: seq<Profile>, b: seq<Profile>, query: string)
    ensures Filtered(a + b, query) == Filtered(a, query) + Filtered(b, query)
  {
    if SearchKey(query) != "" {
      FilterAppend(a, b, MatchesKey(SearchKey(query)));
    }
  }

  // ---------------------------------------------------------------------------
  // Pagination
  // ---------------------------------------------------------------------------

  const PerPage: nat := 6

  /** `Math.max(1, Math.ceil(n / perPage))`: the fewest pages that hold `n` items, at least one. */
  function TotalPages(n: nat): (r: nat)
    ensures r >= 1
    ensures n == 0 ==> r == 1
    ensures n > 0 ==> (r - 1) * PerPage < n <= r * PerPage
  {
    if n == 0 then 1 else (n + PerPage - 1) / PerPage
  }

  /** `filtered.slice((page - 1) * perPage, page * perPage)`. */
  function PageItems(items: seq<Profile>, page: int): (r: seq<Profile>)
    ensures |r| <= PerPage
    ensures page >= 1 && page * PerPage <= |items| ==> r == items[(page - 1) * PerPage..page * PerPage]
    ensures page >= 1 && (page - 1) * PerPage <= |items| < page * PerPage ==> r == items[(page - 1) * PerPage..]
  {
    var r := Slice(items, (page - 1) * PerPage, page * PerPage);
    assert |r| <= PerPage by {
      if page < 1 {
        assert page * PerPage <= 0;
      }
    }
    r
  }

  /** Every item is on exactly one in-range page: item `i` is entry `i % 6` of page `i / 6 + 1`. */
  lemma ItemOnPage(items: seq<Profile>, i: nat)
    requires i < |items|
    ensures 1 <= i / PerPage + 1 <= TotalPages(|items|)
    ensures i % PerPage < |PageItems(items, i / PerPage + 1)|
    ensures PageItems(items, i / PerPage + 1)[i % PerPage] == items[i]
  {
    var page := i / PerPage + 1;
    assert (page - 1) * PerPage == i - i % PerPage;
    assert (page - 1) * PerPage <= i < page * PerPage;
  }

  /** The "Prev" button: `Math.max(1, page - 1)`. */
  function PrevPage(page: int): (r: int)
    ensures r >= 1
    ensures page > 1 ==> r == page - 1
    ensures page <= 1 ==> r == 1
  {
    if page - 1 < 1 then 1 else page - 1
  }

  /** The "Next" button: `Math.min(totalPages, page + 1)`. */
  function NextPage(page: int, total: nat): (r: int)
    requires total >= 1
    ensures r <= total
    ensures page < total ==> r == page + 1
    ensures page >= total ==> r == total
  {
    if total < page + 1 then total else page + 1
  }

  /** From any page in range, both buttons keep the page in range, and they undo each other. */
  lemma PagerInRange(page: int, total: nat)
    requires 1 <= page <= total
    ensures 1 <= PrevPage(page) <= total && 1 <= NextPage(page, total) <= total
    ensures page < total ==> PrevPage(NextPage(page, total)) == page
    ensures page > 1 ==> NextPage(PrevPage(page), total) == page
  {
  }

  // ---------------------------------------------------------------------------
  // The manager's state
  // ---------------------------------------------------------------------------

  datatype Mode = ListMode | CreateMode | EditMode | ViewMode

  class ProfileManager {
    var profiles: seq<Profile>
    var query: string
    var mode: Mode
    var active: Option<Profile>
    var page: int

    ghost predicate Valid()
      reads this
    {
      page >= 1
    }

    /** The number of pages of the current search result. */
    function Total(): nat
      reads this
    {
      TotalPages(|Filtered(profiles, query)|)
    }

    /** What the list shows: the current page of the current search result. */
    function Shown(): seq<Profile>
      reads this
    {
      PageItems(Filtered(profiles, query), page)
    }

    /** The manager starts on page 1 of the stored profiles, with no query. */
    constructor (stored: seq<Profile>)
      ensures Valid()
      ensures profiles == stored && query == "" && mode == ListMode && active == None && page == 1
      ensures Shown() == PageItems(stored, 1)
    {
      profiles := stored;
      query := "";
      mode := ListMode;
      active := None;
      page := 1;
    }

    /** `handleCreate`; `newId` stands for `uid()` and `now` for the creation time. */
    method HandleCreate(newId: string, now: string)
      requires Valid()
      modifies this
      ensures Valid()
      ensures active == Some(Profile(newId, map["createdAt" := now])) && mode == CreateMode
      ensures profiles == old(profiles) && query == old(query) && page == old(page)
    {
      active := Some(Profile(newId, map["createdAt" := now]));
      mode := CreateMode;
    }

    method HandleSave(p: Profile)
      requires Valid()
      modifies this
      ensures Valid()
      ensures profiles == Saved(old(profiles), p) && mode == ListMode && active == None
      ensures query == old(query) && page == old(page)
    {
      profiles := Saved(profiles, p);
      mode := ListMode;
      active := None;
    }

    method HandleEdit(p: Profile)
      requires Valid()
      modifies this
      ensures Valid()
      ensures active == Some(p) && mode == EditMode
      ensures profiles == old(profiles) && query == old(query) && page == old(page)
    {
      active := Some(p);
      mode := EditMode;
    }

    method HandleView(p: Profile)
      requires Valid()
      modifies this
      ensures Valid()
      ensures active == Some(p) && mode == ViewMode
      ensures profiles == old(profiles) && query == old(query) && page == old(page)
    {
      active := Some(p);
      mode := ViewMode;
    }

    /** `handleDelete`; `confirmed` is the user's answer to the confirmation dialog. */
    method HandleDelete(p: Profile, confirmed: bool)
      requires Valid()
      modifies this
      ensures Valid()
      ensures profiles == if confirmed then Deleted(old(profiles), p.id) else old(profiles)
      ensures query == old(query) && page == old(page) && mode == old(mode) && active == old(active)
    {
      if !confirmed {
        return;
      }
      profiles := Deleted(profiles, p.id);
    }

    /** Typing in the search box sets the query and goes back to page 1. */
    method SetQuery(q: string)
      requires Valid()
      modifies this
      ensures Valid()
      ensures query == q && page == 1
      ensures profiles == old(profiles) && mode == old(mode) && active == old(active)
    {
      query := q;
      page := 1;
    }

    /** "Prev"; the pager is only shown when there is more than one page. */
    method Prev()
      requires Valid() && Total() > 1
      modifies this
      ensures Valid()
      ensures page == PrevPage(old(page))
      ensures profiles == old(profiles) && query == old(query) && mode == old(mode) && active == old(active)
    {
      page := PrevPage(page);
    }

    /** "Next"; it never goes past the last page. */
    method Next()
      requires Valid() && Total() > 1
      modifies this
      ensures Valid()
      ensures page == NextPage(old(page), Total()) && page <= Total()
      ensures profiles == old(profiles) && query == old(query) && mode == old(mode) && active == old(active)
    {
      page := NextPage(page, Total());
    }

    /** The effect on `totalPages`: a page past the end is pulled back to the last page. */
    method ClampPage()
      requires Valid()
      modifies this
      ensures Valid()
      ensures 1 <= page <= Total()
      ensures old(page) <= Total() ==> page == old(page)
      ensures profiles == old(profiles) && query == old(query) && mode == old(mode) && active == old(active)
    {
      if page > Total() {
        page := Total();
      }
    }
  }
}
