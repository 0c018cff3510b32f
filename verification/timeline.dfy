/**
 * The photo timeline (`timeline/index.js`): the photos grouped into one
 * section per day, newest day first, and the two updates applied to the
 * cached timeline list after an upload and after a deletion.
 *
 * The source orders days with `new Date(a).getTime() - new Date(b).getTime()`;
 * for `YYYY-MM-DD` days that is the string order `StringLe` used here.
 */
module Timeline {
  import opened Wrappers
  import opened Seqs

  /** A file document as the timeline sees it: its id and its `metadata.datetime`, if any. */
  datatype Photo = Photo(id: string, datetime: Option<string>)

  /** One section of the timeline: a day and the photos taken on it. */
  datatype Section = Section(day: string, photos: seq<Photo>)

  /** `datetime.slice(0, 10)`: the first ten characters, or all of a shorter string. */
  function Day(datetime: string): (day: string)
    ensures day <= datetime
    ensures |day| == if |datetime| < 10 then |datetime| else 10
  {
    if |datetime| <= 10 then datetime else datetime[..10]
  }

  /**
   * The day a photo is filed under.  A photo without a (non-empty) datetime
   * makes the source fall back on `Date.now()`, a number, whose `slice`
   * throws: such a photo has no day.
   */
  function DayOf(p: Photo): Option<string> {
    if p.datetime.Some? && p.datetime.value != [] then Some(Day(p.datetime.value)) else None
  }

  /** Every photo has a day. */
  predicate Dated(photos: seq<Photo>) {
    forall k :: 0 <= k < |photos| ==> DayOf(photos[k]).Some?
  }

  /** The days of the photos, each once, in order of first appearance (`Object.keys(sections)`). */
  function DaysOf(photos: seq<Photo>): seq<string>
    decreases |photos|
  {
    if photos == [] then []
    else
      var days := DaysOf(photos[..|photos| - 1]);
      var d := DayOf(photos[|photos| - 1]);
      if d.Some? && d.value !in days then days + [d.value] else days
  }

  /** The photos of one day, in input order. */
  function PhotosOn(photos: seq<Photo>, day: string): seq<Photo>
    decreases |photos|
  {
    if photos == [] then []
    else
      var last := photos[|photos| - 1];
      PhotosOn(photos[..|photos| - 1], day) + (if DayOf(last) == Some(day) then [last] else [])
  }

  /** Lexicographic order of strings, by character code. */
  predicate StringLe(a: string, b: string)
    decreases |a|
  {
    if a == [] then true
    else if b == [] then false
    else if a[0] != b[0] then a[0] < b[0]
    else StringLe(a[1..], b[1..])
  }

  lemma {:induction false} StringLeTotal(a: string, b: string)
    ensures StringLe(a, b) || StringLe(b, a)
    decreases |a|
  {
    if a != [] && b != [] && a[0] == b[0] {
      StringLeTotal(a[1..], b[1..]);
    }
  }

  lemma {:induction false} StringLeTransitive(a: string, b: string, c: string)
    requires StringLe(a, b) && StringLe(b, c)
    ensures StringLe(a, c)
    decreases |a|
  {
    if a != [] && b != [] && c != [] && a[0] == b[0] && b[0] == c[0] {
      StringLeTransitive(a[1..], b[1..], c[1..]);
    }
  }

  lemma {:induction false} StringLeAntisymmetric(a: string, b: string)
    requires StringLe(a, b) && StringLe(b, a)
    ensures a == b
    decreases |a|
  {
    if a != [] && b != [] {
      StringLeAntisymmetric(a[1..], b[1..]);
      assert a == [a[0]] + a[1..] && b == [b[0]] + b[1..];
    }
  }

  /** The string order is a total preorder, so sorting by it sorts. */
  lemma StringLeIsTotalPreorder()
    ensures TotalPreorder(StringLe)
  {
    forall a, b
      ensures StringLe(a, b) || StringLe(b, a)
    {
      StringLeTotal(a, b);
    }
    forall a, b, c | StringLe(a, b) && StringLe(b, c)
      ensures StringLe(a, c)
    {
      StringLeTransitive(a, b, c);
    }
  }

  /** No element occurs twice. */
  predicate Distinct<T(==)>(s: seq<T>) {
    forall i, j :: 0 <= i < j < |s| ==> s[i] != s[j]
  }

  /** A sequence without repetitions counts each element at most once. */
  lemma {:induction false} DistinctCountsOnce<T>(s: seq<T>, x: T)
    requires Distinct(s)
    ensures multiset(s)[x] <= 1
    decreases |s|
  {
    if s != [] {
      var init, last := s[..|s| - 1], s[|s| - 1];
      assert s == init + [last];
      DistinctCountsOnce(init, x);
      if last == x {
        assert x !in init;
      }
    }
  }

  /** A sequence that counts each element at most once has no repetitions. */
  lemma CountsOnceDistinct<T>(s: seq<T>)
    requires forall x :: multiset(s)[x] <= 1
    ensures Distinct(s)
  {
    forall i, j | 0 <= i < j < |s|
      ensures s[i] != s[j]
    {
      var x := s[i];
      assert s == s[..j] + [s[j]] + s[j + 1..];
      assert multiset(s) == multiset(s[..j]) + multiset{s[j]} + multiset(s[j + 1..]);
      assert s[..j][i] == x;
      assert multiset(s[..j])[x] >= 1;
      assert multiset(s)[x] <= 1;
      assert multiset{s[j]}[x] == 0;
    }
  }

  lemma {:induction false} DaysOfDistinct(photos: seq<Photo>)
    ensures Distinct(DaysOf(photos))
    decreases |photos|
  {
    if photos != [] {
      DaysOfDistinct(photos[..|photos| - 1]);
    }
  }

  /** A photo is among the photos of a day exactly when it is one of the photos and has that day. */
  lemma {:induction false} PhotosOnMembers(photos: seq<Photo>, day: string, p: Photo)
    ensures p in PhotosOn(photos, day) <==> p in photos && DayOf(p) == Some(day)
    decreases |photos|
  {
    if photos != [] {
      var init := photos[..|photos| - 1];
      assert photos == init + [photos[|photos| - 1]];
      PhotosOnMembers(init, day, p);
    }
  }

  /** A day is listed exactly when some photo was taken on it. */
  lemma {:induction false} DaysOfMembers(photos: seq<Photo>, day: string)
    ensures day in DaysOf(photos) <==> PhotosOn(photos, day) != []
    decreases |photos|
  {
    if photos != [] {
      DaysOfMembers(photos[..|photos| - 1], day);
    }
  }

  /** The days, newest first: sorted by the string order, then reversed. */
  function SortedDays(photos: seq<Photo>): seq<string> {
    Reverse(Sort(DaysOf(photos), StringLe))
  }

  /** The sorted days are the days of the photos, each once, in strictly descending order. */
  lemma SortedDaysDescending(photos: seq<Photo>)
    ensures multiset(SortedDays(photos)) == multiset(DaysOf(photos))
    ensures Distinct(SortedDays(photos))
    ensures forall j, k :: 0 <= j < k < |SortedDays(photos)| ==>
              StringLe(SortedDays(photos)[k], SortedDays(photos)[j])
  {
    var days := DaysOf(photos);
    var sorted := Sort(days, StringLe);
    StringLeIsTotalPreorder();
    SortSorted(days, StringLe);
    ReverseMultiset(sorted);
    DaysOfDistinct(photos);
    forall x
      ensures multiset(SortedDays(photos))[x] <= 1
    {
      DistinctCountsOnce(days, x);
    }
    CountsOnceDistinct(SortedDays(photos));
  }

  /** The sections for the given days, each with the photos of its day. */
  function Sections(photos: seq<Photo>, days: seq<string>): seq<Section> {
    seq(|days|, j requires 0 <= j < |days| => Section(days[j], PhotosOn(photos, days[j])))
  }

  /**
   * `getPhotosByDay(photos)`: one section per day, newest day first; none
   * when a photo has no datetime (the source throws).
   */
  function ByDay(photos: seq<Photo>): Option<seq<Section>> {
    if Dated(photos) then Some(Sections(photos, SortedDays(photos))) else None
  }

  /** No section is empty. */
  lemma ByDayNoEmptySection(photos: seq<Photo>)
    requires Dated(photos)
    ensures forall j :: 0 <= j < |ByDay(photos).value| ==> ByDay(photos).value[j].photos != []
  {
    var ss := ByDay(photos).value;
    var days := SortedDays(photos);
    SortedDaysDescending(photos);
    forall j | 0 <= j < |ss|
      ensures ss[j].photos != []
    {
      assert days[j] in multiset(DaysOf(photos));
      DaysOfMembers(photos, days[j]);
    }
  }

  /** The section days strictly decrease, newest first, so no day has two sections. */
  lemma ByDayNewestFirst(photos: seq<Photo>)
    requires Dated(photos)
    ensures forall j, k :: 0 <= j < k < |ByDay(photos).value| ==>
              StringLe(ByDay(photos).value[k].day, ByDay(photos).value[j].day) &&
              ByDay(photos).value[k].day != ByDay(photos).value[j].day
  {
    SortedDaysDescending(photos);
  }

  /** A photo is in a section exactly when it was taken on that section's day. */
  lemma ByDayFilesByDay(photos: seq<Photo>)
    requires Dated(photos)
    ensures forall j, k :: 0 <= j < |ByDay(photos).value| && 0 <= k < |photos| ==>
              (photos[k] in ByDay(photos).value[j].photos <==> DayOf(photos[k]) == Some(ByDay(photos).value[j].day))
  {
    var ss := ByDay(photos).value;
    forall j, k | 0 <= j < |ss| && 0 <= k < |photos|
      ensures photos[k] in ss[j].photos <==> DayOf(photos[k]) == Some(ss[j].day)
    {
      PhotosOnMembers(photos, ss[j].day, photos[k]);
    }
  }

  /** Every photo's day has a section. */
  lemma ByDayCoversEveryPhoto(photos: seq<Photo>)
    requires Dated(photos)
    ensures forall k :: 0 <= k < |photos| ==>
              exists j :: 0 <= j < |ByDay(photos).value| && ByDay(photos).value[j].day == DayOf(photos[k]).value
  {
    var ss := ByDay(photos).value;
    var days := SortedDays(photos);
    forall k | 0 <= k < |photos|
      ensures exists j :: 0 <= j < |ss| && ss[j].day == DayOf(photos[k]).value
    {
      DayListed(photos, k);
      var j :| 0 <= j < |days| && days[j] == DayOf(photos[k]).value;
      assert ss[j].day == days[j];
    }
  }

  /** The day of every photo is among the sorted days. */
  lemma DayListed(photos: seq<Photo>, k: nat)
    requires Dated(photos) && k < |photos|
    ensures DayOf(photos[k]).value in SortedDays(photos)
  {
    var d := DayOf(photos[k]).value;
    PhotosOnMembers(photos, d, photos[k]);
    DaysOfMembers(photos, d);
    SortedDaysDescending(photos);
    assert d in multiset(SortedDays(photos));
  }

  /** The photo lists of the sections. */
  function PhotoLists(ss: seq<Section>): seq<seq<Photo>> {
    seq(|ss|, j requires 0 <= j < |ss| => ss[j].photos)
  }

  /** All photos of the sections for `days`, counted with multiplicity. */
  function Gather(photos: seq<Photo>, days: seq<string>): multiset<Photo>
    decreases |days|
  {
    if days == [] then multiset{}
    else Gather(photos, days[..|days| - 1]) + multiset(PhotosOn(photos, days[|days| - 1]))
  }

  lemma {:induction false} FlattenGathers(photos: seq<Photo>, days: seq<string>)
    ensures multiset(Flatten(PhotoLists(Sections(photos, days)))) == Gather(photos, days)
    decreases |days|
  {
    if days != [] {
      var init, last := days[..|days| - 1], days[|days| - 1];
      FlattenGathers(photos, init);
      var lists := PhotoLists(Sections(photos, days));
      assert lists == PhotoLists(Sections(photos, init)) + [PhotosOn(photos, last)];
      FlattenAppend(PhotoLists(Sections(photos, init)), PhotosOn(photos, last));
    }
  }

  /** One more photo adds it once to the sections of distinct days that include its day. */
  lemma {:induction false} GatherSnoc(photos: seq<Photo>, p: Photo, days: seq<string>)
    requires Distinct(days)
    ensures Gather(photos + [p], days) ==
              Gather(photos, days) + (if DayOf(p).Some? && DayOf(p).value in days then multiset{p} else multiset{})
    decreases |days|
  {
    if days != [] {
      var init, last := days[..|days| - 1], days[|days| - 1];
      assert days == init + [last];
      DistinctInit(days);
      GatherSnoc(photos, p, init);
      PhotosOnSnoc(photos, p, last);
    }
  }

  /** Dropping the last element keeps a sequence distinct, and that element is not among the rest. */
  lemma DistinctInit<T>(s: seq<T>)
    requires |s| > 0 && Distinct(s)
    ensures Distinct(s[..|s| - 1]) && s[|s| - 1] !in s[..|s| - 1]
  {
  }

  /** One more photo joins the photos of its own day, at the end. */
  lemma PhotosOnSnoc(photos: seq<Photo>, p: Photo, day: string)
    ensures PhotosOn(photos + [p], day) == PhotosOn(photos, day) + (if DayOf(p) == Some(day) then [p] else [])
  {
    assert (photos + [p])[..|photos|] == photos;
  }

  /** Distinct days that cover every photo's day gather every photo exactly once. */
  lemma {:induction false} GatherAll(photos: seq<Photo>, days: seq<string>)
    requires Distinct(days)
    requires forall k :: 0 <= k < |photos| ==> DayOf(photos[k]).Some? && DayOf(photos[k]).value in days
    ensures Gather(photos, days) == multiset(photos)
    decreases |photos|
  {
    if photos == [] {
      GatherEmpty(days);
    } else {
      var init, last := photos[..|photos| - 1], photos[|photos| - 1];
      GatherAll(init, days);
      GatherSnoc(init, last, days);
      assert photos == init + [last];
    }
  }

  lemma {:induction false} GatherEmpty(days: seq<string>)
    ensures Gather([], days) == multiset{}
    decreases |days|
  {
    if days != [] {
      GatherEmpty(days[..|days| - 1]);
    }
  }

  /** The sections partition the photos: every photo lands in exactly one section. */
  lemma ByDayPartitions(photos: seq<Photo>)
    requires Dated(photos)
    ensures multiset(Flatten(PhotoLists(ByDay(photos).value))) == multiset(photos)
  {
    var days := SortedDays(photos);
    SortedDaysDescending(photos);
    forall k | 0 <= k < |photos|
      ensures DayOf(photos[k]).value in days
    {
      DayListed(photos, k);
    }
    FlattenGathers(photos, days);
    GatherAll(photos, days);
  }

  /** The `sections` dictionary after the given photos: the photos of each day, under the day. */
  function SectionMap(photos: seq<Photo>): map<string, seq<Photo>>
    decreases |photos|
  {
    if photos == [] then map[]
    else
      var m := SectionMap(photos[..|photos| - 1]);
      var last := photos[|photos| - 1];
      match DayOf(last)
      case None => m
      case Some(d) => m[d := (if d in m then m[d] else []) + [last]]
  }

  /** The dictionary holds the listed days, each with the photos of that day. */
  lemma {:induction false} SectionMapHoldsDays(photos: seq<Photo>, day: string)
    ensures day in SectionMap(photos) <==> day in DaysOf(photos)
    ensures day in SectionMap(photos) ==> SectionMap(photos)[day] == PhotosOn(photos, day)
    decreases |photos|
  {
    if photos != [] {
      SectionMapHoldsDays(photos[..|photos| - 1], day);
      DaysOfMembers(photos[..|photos| - 1], day);
    }
  }

  /** One more photo, as the loop of `getPhotosByDay` sees it. */
  lemma StepByDay(photos: seq<Photo>, p: Photo)
    requires DayOf(p).Some?
    ensures DaysOf(photos + [p]) ==
              if DayOf(p).value !in DaysOf(photos) then DaysOf(photos) + [DayOf(p).value] else DaysOf(photos)
    ensures var m, d := SectionMap(photos), DayOf(p).value;
              SectionMap(photos + [p]) == m[d := (if d in m then m[d] else []) + [p]]
  {
    assert (photos + [p])[..|photos|] == photos;
  }

  /**
   * `getPhotosByDay(photos)`: fill the `sections` dictionary one photo at a
   * time, then list its days newest first with their photos.
   */
  method GetPhotosByDay(photos: seq<Photo>) returns (r: Option<seq<Section>>)
    ensures r == ByDay(photos)
  {
    var sections: map<string, seq<Photo>> := map[];
    var days: seq<string> := [];
    var i := 0;
    while i < |photos|
      invariant 0 <= i <= |photos|
      invariant Dated(photos[..i])
      invariant days == DaysOf(photos[..i])
      invariant sections == SectionMap(photos[..i])
    {
      var p := photos[i];
      if DayOf(p).None? {
        return None;
      }
      assert photos[..i + 1] == photos[..i] + [p];
      sections, days := FilePhoto(sections, days, photos[..i], p);
      i := i + 1;
    }
    assert photos[..i] == photos;
    var list := ListSections(sections, days, photos);
    r := Some(list);
  }

  /** One step of the `forEach`: the photo goes under its day, a new day is listed. */
  method FilePhoto(sections: map<string, seq<Photo>>, days: seq<string>, ghost seen: seq<Photo>, p: Photo)
    returns (sections': map<string, seq<Photo>>, days': seq<string>)
    requires DayOf(p).Some?
    requires days == DaysOf(seen) && sections == SectionMap(seen)
    ensures days' == DaysOf(seen + [p]) && sections' == SectionMap(seen + [p])
  {
    var day := Day(p.datetime.value);
    StepByDay(seen, p);
    SectionMapHoldsDays(seen, day);
    sections', days' := sections, days;
    if day !in sections' {
      sections' := sections'[day := []];
      days' := days' + [day];
    }
    sections' := sections'[day := sections'[day] + [p]];
  }

  /** The sort and the `map` after the `forEach`: the sections, newest day first. */
  method ListSections(sections: map<string, seq<Photo>>, days: seq<string>, ghost photos: seq<Photo>)
    returns (r: seq<Section>)
    requires Dated(photos) && days == DaysOf(photos) && sections == SectionMap(photos)
    ensures r == Sections(photos, SortedDays(photos))
  {
    var sorted := Reverse(Sort(days, StringLe));
    SectionsOfSectionMap(photos);
    r := SectionsOf(sections, sorted);
  }

  /** `sortedDays.map(day => ({day, photos: sections[day]}))`. */
  function SectionsOf(sections: map<string, seq<Photo>>, sorted: seq<string>): seq<Section>
    requires forall j :: 0 <= j < |sorted| ==> sorted[j] in sections
  {
    seq(|sorted|, j requires 0 <= j < |sorted| => Section(sorted[j], sections[sorted[j]]))
  }

  /** Every sorted day is in the dictionary, under it the photos of that day. */
  lemma SortedDayInSectionMap(photos: seq<Photo>, day: string)
    requires day in SortedDays(photos)
    ensures day in SectionMap(photos) && SectionMap(photos)[day] == PhotosOn(photos, day)
  {
    SortedDaysDescending(photos);
    assert day in multiset(DaysOf(photos));
    SectionMapHoldsDays(photos, day);
  }

  /** Listing the dictionary by the sorted days gives the sections of the photos. */
  lemma SectionsOfSectionMap(photos: seq<Photo>)
    ensures forall j :: 0 <= j < |SortedDays(photos)| ==> SortedDays(photos)[j] in SectionMap(photos)
    ensures SectionsOf(SectionMap(photos), SortedDays(photos)) == Sections(photos, SortedDays(photos))
  {
    var sorted := SortedDays(photos);
    forall j | 0 <= j < |sorted|
      ensures sorted[j] in SectionMap(photos) && SectionMap(photos)[sorted[j]] == PhotosOn(photos, sorted[j])
    {
      SortedDayInSectionMap(photos, sorted[j]);
    }
  }

  /** The `uploadPhoto` update: the new document first, then the previous list. */
  function Upload(previous: seq<Photo>, doc: Photo): seq<Photo> {
    [doc] + previous
  }

  /** The `deletePhoto` update: the previous list without the documents with the deleted id. */
  function Delete(previous: seq<Photo>, id: string): seq<Photo>
    decreases |previous|
  {
    if previous == [] then []
    else
      var last := previous[|previous| - 1];
      Delete(previous[..|previous| - 1], id) + (if last.id != id then [last] else [])
  }

  /** Deleting drops every document with the id and keeps every other one as often as it was there. */
  lemma {:induction false} DeleteCounts(previous: seq<Photo>, id: string, p: Photo)
    ensures multiset(Delete(previous, id))[p] == if p.id == id then 0 else multiset(previous)[p]
    decreases |previous|
  {
    if previous != [] {
      var init := previous[..|previous| - 1];
      assert previous == init + [previous[|previous| - 1]];
      DeleteCounts(init, id, p);
    }
  }

  /** Deleting keeps the order: without a document with the id, the list is unchanged. */
  lemma {:induction false} DeleteAbsentIsIdentity(previous: seq<Photo>, id: string)
    requires forall k :: 0 <= k < |previous| ==> previous[k].id != id
    ensures Delete(previous, id) == previous
    decreases |previous|
  {
    if previous != [] {
      var init := previous[..|previous| - 1];
      DeleteAbsentIsIdentity(init, id);
      assert previous == init + [previous[|previous| - 1]];
    }
  }

  /** Deleting distributes over concatenation, so the surviving documents keep their order. */
  lemma {:induction false} DeleteOfConcat(a: seq<Photo>, b: seq<Photo>, id: string)
    ensures Delete(a + b, id) == Delete(a, id) + Delete(b, id)
    decreases |b|
  {
    if b == [] {
      assert a + b == a;
    } else {
      var init, last := b[..|b| - 1], b[|b| - 1];
      assert b == init + [last];
      assert a + b == (a + init) + [last];
      assert (a + b)[..|a + b| - 1] == a + init;
      DeleteOfConcat(a, init, id);
    }
  }

  /** Deleting twice is deleting once. */
  lemma {:induction false} DeleteIdempotent(previous: seq<Photo>, id: string)
    ensures Delete(Delete(previous, id), id) == Delete(previous, id)
    decreases |previous|
  {
    if previous != [] {
      var init, last := previous[..|previous| - 1], previous[|previous| - 1];
      DeleteIdempotent(init, id);
      var d := Delete(init, id);
      if last.id != id {
        assert Delete(previous, id) == d + [last];
        assert (d + [last])[..|d|] == d;
        assert Delete(d + [last], id) == Delete(d, id) + [last];
      } else {
        assert Delete(previous, id) == d;
      }
    }
  }

  /** Deleting an uploaded document's id undoes the upload. */
  lemma {:induction false} UploadThenDelete(previous: seq<Photo>, doc: Photo)
    ensures Delete(Upload(previous, doc), doc.id) == Delete(previous, doc.id)
    decreases |previous|
  {
    if previous != [] {
      var init, last := previous[..|previous| - 1], previous[|previous| - 1];
      UploadThenDelete(init, doc);
      assert Upload(previous, doc)[..|previous|] == Upload(init, doc);
    }
  }

  /** An uploaded photo comes first among the photos of its day; the other days are unchanged. */
  lemma {:induction false} UploadLeadsItsDay(previous: seq<Photo>, doc: Photo, day: string)
    ensures PhotosOn(Upload(previous, doc), day) == (if DayOf(doc) == Some(day) then [doc] else []) + PhotosOn(previous, day)
    decreases |previous|
  {
    if previous != [] {
      var init, last := previous[..|previous| - 1], previous[|previous| - 1];
      UploadLeadsItsDay(init, doc, day);
      assert Upload(previous, doc)[..|previous|] == Upload(init, doc);
    }
  }
}
