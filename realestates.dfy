/** The listing service: creation with a unique registration, the view
    counter, the list and search queries, the advanced search and report
    filters, and the field-by-field merge on update.  Object storage and the
    social-feed post are outside the model (see README). */
module RealEstates {
  import opened Common
  import opened Store
  import Strings

  /** `Number.MAX_SAFE_INTEGER`, the report's default upper price bound. */
  const MAX_SAFE_INTEGER: int := 9007199254740991

  // ---------------------------------------------------------------------
  // Inputs

  /** A form field as the controller hands it over: absent, a boolean, or
      text (multipart fields arrive as text). */
  datatype FormValue = Missing | Flag(b: bool) | Word(s: string)

  /** `!!v`: JavaScript truthiness; any non-empty text is true, "false" too. */
  predicate Truthy(v: FormValue) {
    match v
    case Missing => false
    case Flag(b) => b
    case Word(s) => s != ""
  }

  /** JavaScript truthiness of an optional number: absent and 0 are falsy. */
  predicate NonZero(n: Option<int>) {
    n.Some? && n.value != 0
  }

  /** At least one URL: one per uploaded file. */
  type Urls = s: seq<string> | |s| > 0 witness [""]

  /** What uploading the attached files to object storage gave: no files were
      attached, the URLs of the stored files, or a failure. */
  datatype Upload = NoFiles | Uploaded(urls: Urls) | UploadFailed

  /** The body of a create request.  Prices arrive already parsed. */
  datatype RealEstateInput = RealEstateInput(
    registration: string,
    street: string, number: string, complement: string, district: string,
    zipCode: string, city: string, state: string,
    builtArea: int, totalArea: int,
    bedrooms: int, bathrooms: int, livingRooms: int, kitchens: int,
    estateType: string,
    description: string,
    salePrice: Option<int>,
    garage: FormValue, status: FormValue, yard: FormValue, pool: FormValue, isPosted: FormValue)

  /** The body of an update request: every field may be left out. */
  datatype RealEstatePatch = RealEstatePatch(
    registration: Option<string>,
    street: Option<string>, number: Option<string>, complement: Option<string>,
    district: Option<string>, zipCode: Option<string>, city: Option<string>, state: Option<string>,
    builtArea: Option<int>, totalArea: Option<int>,
    bedrooms: Option<int>, bathrooms: Option<int>, livingRooms: Option<int>, kitchens: Option<int>,
    estateType: Option<string>,
    description: Option<string>,
    salePrice: Option<int>,
    garage: FormValue, status: FormValue, yard: FormValue, pool: FormValue, isPosted: FormValue)

  /** The query of the advanced search.  Counts and prices are the numbers the
      query text denotes; a price is None when its text is absent, empty or
      not a number. */
  datatype SearchFilters = SearchFilters(
    bedrooms: Option<int>, bathrooms: Option<int>, kitchens: Option<int>, livingRooms: Option<int>,
    minPrice: Option<int>, maxPrice: Option<int>,
    estateType: Option<string>,
    garage: Option<string>, yard: Option<string>, pool: Option<string>)

  /** The query of the listing report; None stands for an absent or empty
      field, except for `status`, where only an absent field is None. */
  datatype ReportFilters = ReportFilters(
    minPrice: Option<int>, maxPrice: Option<int>,
    bedrooms: Option<int>, bathrooms: Option<int>,
    status: Option<string>)

  // ---------------------------------------------------------------------
  // Database filters

  datatype PriceRange = PriceRange(gte: Option<int>, lte: Option<int>)

  /** The `where` object of a listing query: each present field is one
      condition, absent fields constrain nothing. */
  datatype Where = Where(
    userId: Option<Id>,
    bedrooms: Option<int>, bathrooms: Option<int>, kitchens: Option<int>, livingRooms: Option<int>,
    salePrice: Option<PriceRange>,
    estateType: Option<string>,
    status: Option<bool>, garage: Option<bool>, yard: Option<bool>, pool: Option<bool>)

  const NoConditions: Where :=
    Where(None, None, None, None, None, None, None, None, None, None, None)

  predicate InRange(price: int, range: PriceRange) {
    (range.gte.Some? ==> range.gte.value <= price) && (range.lte.Some? ==> price <= range.lte.value)
  }

  /** How the database reads a `where` object; a price condition never holds
      of a listing without a price. */
  predicate Satisfies(e: RealEstate, w: Where) {
    && (w.userId.Some? ==> e.userId == w.userId)
    && (w.bedrooms.Some? ==> e.bedrooms == w.bedrooms.value)
    && (w.bathrooms.Some? ==> e.bathrooms == w.bathrooms.value)
    && (w.kitchens.Some? ==> e.kitchens == w.kitchens.value)
    && (w.livingRooms.Some? ==> e.livingRooms == w.livingRooms.value)
    && (w.salePrice.Some? ==> e.salePrice.Some? && InRange(e.salePrice.value, w.salePrice.value))
    && (w.estateType.Some? ==> e.estateType == w.estateType.value)
    && (w.status.Some? ==> e.status == w.status.value)
    && (w.garage.Some? ==> e.garage == w.garage.value)
    && (w.yard.Some? ==> e.yard == w.yard.value)
    && (w.pool.Some? ==> e.pool == w.pool.value)
  }

  /** What the advanced search promises, filter by filter: counts and type
      only when given, a price bound only when it is non-zero, a boolean
      only when its text is non-empty, and then "trimmed text is 'true'". */
  ghost predicate AdvanceCriteria(f: SearchFilters, e: RealEstate) {
    && (f.bedrooms.Some? ==> e.bedrooms == f.bedrooms.value)
    && (f.bathrooms.Some? ==> e.bathrooms == f.bathrooms.value)
    && (f.kitchens.Some? ==> e.kitchens == f.kitchens.value)
    && (f.livingRooms.Some? ==> e.livingRooms == f.livingRooms.value)
    && (NonZero(f.minPrice) ==> e.salePrice.Some? && f.minPrice.value <= e.salePrice.value)
    && (NonZero(f.maxPrice) ==> e.salePrice.Some? && e.salePrice.value <= f.maxPrice.value)
    && (NonEmpty(f.estateType) ==> e.estateType == f.estateType.value)
    && (NonEmpty(f.garage) ==> e.garage == (Strings.Trim(f.garage.value) == "true"))
    && (NonEmpty(f.yard) ==> e.yard == (Strings.Trim(f.yard.value) == "true"))
    && (NonEmpty(f.pool) ==> e.pool == (Strings.Trim(f.pool.value) == "true"))
  }

  /** A boolean query field: None unless its text is non-empty, and then
      whether the trimmed text is "true". */
  function ParseFlag(s: Option<string>): (b: Option<bool>)
    ensures b.Some? <==> NonEmpty(s)
    ensures b.Some? ==> b.value == (Strings.Trim(s.value) == "true")
  {
    if NonEmpty(s) then Some(Strings.Trim(s.value) == "true") else None
  }

  /** The `where` object the advanced search means to build: each count and
      the type when given, a price range when either bound is non-zero, and
      each flag whose text is non-empty.  It selects exactly what
      AdvanceCriteria describes, and never constrains the owner or the
      status. */
  function AdvanceConditions(f: SearchFilters): (w: Where)
    ensures w.userId.None? && w.status.None?
    ensures forall e :: Satisfies(e, w) <==> AdvanceCriteria(f, e)
  {
    Where(None, f.bedrooms, f.bathrooms, f.kitchens, f.livingRooms,
          if NonZero(f.minPrice) || NonZero(f.maxPrice)
          then Some(PriceRange(if NonZero(f.minPrice) then f.minPrice else None,
                               if NonZero(f.maxPrice) then f.maxPrice else None))
          else None,
          if NonEmpty(f.estateType) then f.estateType else None,
          None, ParseFlag(f.garage), ParseFlag(f.yard), ParseFlag(f.pool))
  }

  /** The advanced search's `whereConditions`, filled field by field from the
      parsed filters. */
  method AdvanceWhere(f: SearchFilters) returns (w: Where)
    ensures w == AdvanceConditions(f)
  {
    var bedrooms, bathrooms, kitchens, livingRooms: Option<int> := None, None, None, None;
    var salePrice: Option<PriceRange> := None;
    var estateType: Option<string> := None;
    var garage, yard, pool: Option<bool> := None, None, None;
    if f.bedrooms.Some? {
      bedrooms := f.bedrooms;
    }
    if f.bathrooms.Some? {
      bathrooms := f.bathrooms;
    }
    if f.kitchens.Some? {
      kitchens := f.kitchens;
    }
    if f.livingRooms.Some? {
      livingRooms := f.livingRooms;
    }
    if NonZero(f.minPrice) || NonZero(f.maxPrice) {
      salePrice := Some(PriceRange(
        if NonZero(f.minPrice) then f.minPrice else None,
        if NonZero(f.maxPrice) then f.maxPrice else None));
    }
    assert salePrice == AdvanceConditions(f).salePrice;
    if NonEmpty(f.estateType) {
      estateType := f.estateType;
    }
    assert estateType == AdvanceConditions(f).estateType;
    if NonEmpty(f.garage) {
      garage := ParseFlag(f.garage);
    }
    assert garage == ParseFlag(f.garage);
    if NonEmpty(f.yard) {
      yard := ParseFlag(f.yard);
    }
    assert yard == ParseFlag(f.yard);
    if NonEmpty(f.pool) {
      pool := ParseFlag(f.pool);
    }
    assert pool == ParseFlag(f.pool);
    w := Where(None, bedrooms, bathrooms, kitchens, livingRooms, salePrice, estateType, None, garage, yard, pool);
  }

  /** What the listing report selects: always the requester's listings; with
      either price bound, the price lies between the minimum (default 0) and
      the maximum (default MAX_SAFE_INTEGER); `status` is compared with
      "true" whenever it is given. */
  ghost predicate ReportCriteria(f: ReportFilters, userId: Id, e: RealEstate) {
    && e.userId == Some(userId)
    && ((f.minPrice.Some? || f.maxPrice.Some?) ==>
          e.salePrice.Some? && f.minPrice.GetOr(0) <= e.salePrice.value <= f.maxPrice.GetOr(MAX_SAFE_INTEGER))
    && (f.bedrooms.Some? ==> e.bedrooms == f.bedrooms.value)
    && (f.bathrooms.Some? ==> e.bathrooms == f.bathrooms.value)
    && (f.status.Some? ==> e.status == (f.status.value == "true"))
  }

  /** The report's `whereConditions`. */
  function ReportWhere(f: ReportFilters, userId: Id): (w: Where)
    ensures w.userId == Some(userId)
    ensures forall e :: Satisfies(e, w) <==> ReportCriteria(f, userId, e)
  {
    NoConditions.(
      userId := Some(userId),
      salePrice :=
        if f.minPrice.Some? || f.maxPrice.Some?
        then Some(PriceRange(Some(f.minPrice.GetOr(0)), Some(f.maxPrice.GetOr(MAX_SAFE_INTEGER))))
        else None,
      bedrooms := f.bedrooms,
      bathrooms := f.bathrooms,
      status := if f.status.Some? then Some(f.status.value == "true") else None)
  }

  // ---------------------------------------------------------------------
  // Query results

  /** `r` lists every row of `rows` that satisfies `p`, each once, and
      nothing else. */
  ghost predicate ListsExactly(r: seq<RealEstate>, rows: map<Id, RealEstate>, p: RealEstate -> bool) {
    && (forall i :: 0 <= i < |r| ==> r[i].id in rows && rows[r[i].id] == r[i] && p(r[i]))
    && (forall k :: k in rows && p(rows[k]) ==> rows[k] in r)
    && (forall i, j :: 0 <= i < j < |r| ==> r[i].id != r[j].id)
  }

  /** The rows of a listing query, in no particular order. */
  method Select(rows: map<Id, RealEstate>, p: RealEstate -> bool) returns (r: seq<RealEstate>)
    requires forall k :: k in rows ==> rows[k].id == k
    ensures ListsExactly(r, rows, p)
  {
    r := [];
    var todo := rows.Keys;
    while todo != {}
      invariant todo <= rows.Keys
      invariant forall i :: 0 <= i < |r| ==> r[i].id in rows && r[i].id !in todo && rows[r[i].id] == r[i] && p(r[i])
      invariant forall k :: k in rows && k !in todo && p(rows[k]) ==> rows[k] in r
      invariant forall i, j :: 0 <= i < j < |r| ==> r[i].id != r[j].id
      decreases todo
    {
      var k :| k in todo;
      if p(rows[k]) {
        r := r + [rows[k]];
      }
      todo := todo - {k};
    }
  }

  /** `orderBy: { viewsCount: 'desc' }`. */
  ghost predicate ByViewsDescending(s: seq<RealEstate>) {
    forall i, j :: 0 <= i < j < |s| ==> s[i].viewsCount >= s[j].viewsCount
  }

  ghost predicate DistinctIds(s: seq<RealEstate>) {
    forall i, j :: 0 <= i < j < |s| ==> s[i].id != s[j].id
  }

  /** Puts `x` in front of the first listing with fewer views. */
  function InsertByViews(x: RealEstate, s: seq<RealEstate>): seq<RealEstate> {
    if s == [] || x.viewsCount >= s[0].viewsCount then [x] + s
    else [s[0]] + InsertByViews(x, s[1..])
  }

  function SortByViews(s: seq<RealEstate>): seq<RealEstate> {
    if s == [] then [] else InsertByViews(s[0], SortByViews(s[1..]))
  }

  lemma {:induction false} InsertByViewsKeeps(x: RealEstate, s: seq<RealEstate>)
    ensures multiset(InsertByViews(x, s)) == multiset(s) + multiset{x}
    ensures forall y :: y in InsertByViews(x, s) ==> y == x || y in s
  {
    if s != [] && x.viewsCount < s[0].viewsCount {
      InsertByViewsKeeps(x, s[1..]);
      assert s == [s[0]] + s[1..];
    }
  }

  lemma {:induction false} InsertByViewsSorted(x: RealEstate, s: seq<RealEstate>)
    requires ByViewsDescending(s)
    ensures ByViewsDescending(InsertByViews(x, s))
  {
    if s != [] && x.viewsCount < s[0].viewsCount {
      var t := InsertByViews(x, s[1..]);
      InsertByViewsSorted(x, s[1..]);
      InsertByViewsKeeps(x, s[1..]);
      forall j | 0 <= j < |t| ensures s[0].viewsCount >= t[j].viewsCount {
        assert t[j] in t;
      }
    }
  }

  lemma {:induction false} InsertByViewsDistinct(x: RealEstate, s: seq<RealEstate>)
    requires DistinctIds(s) && forall y :: y in s ==> y.id != x.id
    ensures DistinctIds(InsertByViews(x, s))
  {
    if s != [] && x.viewsCount < s[0].viewsCount {
      var t := InsertByViews(x, s[1..]);
      InsertByViewsDistinct(x, s[1..]);
      InsertByViewsKeeps(x, s[1..]);
      forall j | 0 <= j < |t| ensures s[0].id != t[j].id {
        assert t[j] in t;
        if t[j] != x {
          var m :| 0 <= m < |s[1..]| && s[1..][m] == t[j];
          assert s[m + 1] == t[j];
        }
      }
    }
  }

  /** Sorting by views keeps the listings and their number, and orders them
      by views, most viewed first. */
  lemma {:induction false} SortByViewsCorrect(s: seq<RealEstate>)
    ensures multiset(SortByViews(s)) == multiset(s)
    ensures ByViewsDescending(SortByViews(s))
  {
    if s != [] {
      var t := SortByViews(s[1..]);
      SortByViewsCorrect(s[1..]);
      InsertByViewsKeeps(s[0], t);
      InsertByViewsSorted(s[0], t);
      assert s == [s[0]] + s[1..];
    }
  }

  /** Sorting by views keeps ids distinct. */
  lemma {:induction false} SortByViewsDistinct(s: seq<RealEstate>)
    requires DistinctIds(s)
    ensures DistinctIds(SortByViews(s))
  {
    if s != [] {
      var t := SortByViews(s[1..]);
      assert DistinctIds(s[1..]);
      SortByViewsDistinct(s[1..]);
      SortByViewsCorrect(s[1..]);
      forall y | y in t ensures y.id != s[0].id {
        assert y in multiset(t);
        assert y in multiset(s[1..]);
        var m :| 0 <= m < |s[1..]| && s[1..][m] == y;
        assert s[m + 1] == y;
      }
      InsertByViewsDistinct(s[0], t);
    }
  }

  /** A query result sorted by views is still the same result. */
  lemma SortedListsExactly(s: seq<RealEstate>, rows: map<Id, RealEstate>, p: RealEstate -> bool)
    requires ListsExactly(s, rows, p)
    ensures ListsExactly(SortByViews(s), rows, p) && ByViewsDescending(SortByViews(s))
  {
    SortByViewsCorrect(s);
    SortByViewsDistinct(s);
    var t := SortByViews(s);
    forall x ensures x in t <==> x in s {
      assert x in t <==> x in multiset(t);
      assert x in s <==> x in multiset(s);
    }
    forall i | 0 <= i < |t| ensures t[i] in s {
      assert t[i] in t;
    }
  }

  // ---------------------------------------------------------------------
  // Create and update

  /** The listing `create` stores: the input's fields, each boolean the
      truthiness of its input, the given images, no views yet, and the
      requester as owner. */
  ghost predicate CreatedFrom(e: RealEstate, data: RealEstateInput, userId: Id, images: seq<string>) {
    && e.registration == data.registration
    && e.street == data.street && e.number == data.number && e.complement == data.complement
    && e.district == data.district && e.zipCode == data.zipCode && e.city == data.city
    && e.state == data.state
    && e.builtArea == data.builtArea && e.totalArea == data.totalArea
    && e.bedrooms == data.bedrooms && e.bathrooms == data.bathrooms
    && e.livingRooms == data.livingRooms && e.kitchens == data.kitchens
    && e.estateType == data.estateType && e.description == data.description
    && e.salePrice == data.salePrice
    && e.garage == Truthy(data.garage) && e.status == Truthy(data.status)
    && e.yard == Truthy(data.yard) && e.pool == Truthy(data.pool)
    && e.isPosted == Truthy(data.isPosted)
    && e.images == images && e.viewsCount == 0 && e.userId == Some(userId)
  }

  /** A text or count field of `update`: the old value stays when the new one
      is falsy. */
  function PickText(v: Option<string>, current: string): string {
    if NonEmpty(v) then v.value else current
  }

  function PickCount(v: Option<int>, current: int): int {
    if NonZero(v) then v.value else current
  }

  /** A boolean field of `update`: "true"/"false" become booleans first, then
      any defined value replaces the old one as `Boolean(value)`. */
  function PickFlag(v: FormValue, current: bool): bool {
    match v
    case Missing => current
    case Flag(b) => b
    case Word(s) => if s == "true" then true else if s == "false" then false else s != ""
  }

  /** The row `update` writes: `e` merged field by field with the patch. */
  function Merged(e: RealEstate, p: RealEstatePatch, images: seq<string>): (m: RealEstate)
    ensures m.id == e.id && m.userId == e.userId && m.viewsCount == e.viewsCount
    ensures m.images == images
  {
    e.(
      street := PickText(p.street, e.street),
      number := PickText(p.number, e.number),
      complement := PickText(p.complement, e.complement),
      district := PickText(p.district, e.district),
      zipCode := PickText(p.zipCode, e.zipCode),
      city := PickText(p.city, e.city),
      state := PickText(p.state, e.state),
      builtArea := PickCount(p.builtArea, e.builtArea),
      totalArea := PickCount(p.totalArea, e.totalArea),
      bedrooms := PickCount(p.bedrooms, e.bedrooms),
      bathrooms := PickCount(p.bathrooms, e.bathrooms),
      livingRooms := PickCount(p.livingRooms, e.livingRooms),
      kitchens := PickCount(p.kitchens, e.kitchens),
      garage := PickFlag(p.garage, e.garage),
      estateType := PickText(p.estateType, e.estateType),
      description := PickText(p.description, e.description),
      salePrice := if p.salePrice.Some? then p.salePrice else e.salePrice,
      status := PickFlag(p.status, e.status),
      yard := PickFlag(p.yard, e.yard),
      pool := PickFlag(p.pool, e.pool),
      isPosted := PickFlag(p.isPosted, e.isPosted),
      registration := PickText(p.registration, e.registration),
      images := images)
  }

  const EmptyPatch: RealEstatePatch :=
    RealEstatePatch(None, None, None, None, None, None, None, None, None, None, None, None,
                    None, None, None, None, None, Missing, Missing, Missing, Missing, Missing)

  /** An update that carries nothing and no files leaves the listing as it was. */
  lemma EmptyPatchKeepsListing(e: RealEstate)
    ensures Merged(e, EmptyPatch, e.images) == e
  {
  }

  /** Applying the same update twice is the same as applying it once. */
  lemma MergeIdempotent(e: RealEstate, p: RealEstatePatch, images: seq<string>)
    ensures Merged(Merged(e, p, images), p, images) == Merged(e, p, images)
  {
  }

  /** The falsy fallback cannot clear a field: every non-empty text field
      stays non-empty and every non-zero count stays non-zero, whatever the
      patch. */
  lemma MergeCannotClear(e: RealEstate, p: RealEstatePatch, images: seq<string>)
    ensures e.street != "" ==> Merged(e, p, images).street != ""
    ensures e.number != "" ==> Merged(e, p, images).number != ""
    ensures e.complement != "" ==> Merged(e, p, images).complement != ""
    ensures e.district != "" ==> Merged(e, p, images).district != ""
    ensures e.zipCode != "" ==> Merged(e, p, images).zipCode != ""
    ensures e.city != "" ==> Merged(e, p, images).city != ""
    ensures e.state != "" ==> Merged(e, p, images).state != ""
    ensures e.estateType != "" ==> Merged(e, p, images).estateType != ""
    ensures e.description != "" ==> Merged(e, p, images).description != ""
    ensures e.registration != "" ==> Merged(e, p, images).registration != ""
    ensures e.builtArea != 0 ==> Merged(e, p, images).builtArea != 0
    ensures e.totalArea != 0 ==> Merged(e, p, images).totalArea != 0
    ensures e.bedrooms != 0 ==> Merged(e, p, images).bedrooms != 0
    ensures e.bathrooms != 0 ==> Merged(e, p, images).bathrooms != 0
    ensures e.livingRooms != 0 ==> Merged(e, p, images).livingRooms != 0
    ensures e.kitchens != 0 ==> Merged(e, p, images).kitchens != 0
  {
  }

  /** The listing table after one detail view of `id`: the same rows, with
      the view count of `id` one higher. */
  function CountView(t: Table<RealEstate>, id: Id): (u: Table<RealEstate>)
    requires id in t.rows
    ensures u.nextId == t.nextId && u.rows.Keys == t.rows.Keys
    ensures u.rows[id].viewsCount == t.rows[id].viewsCount + 1
    ensures forall k :: k in t.rows && k != id ==> u.rows[k] == t.rows[k]
    ensures u.rows[id] == t.rows[id].(viewsCount := u.rows[id].viewsCount)
  {
    t.(rows := t.rows[id := t.rows[id].(viewsCount := t.rows[id].viewsCount + 1)])
  }

  /** Another listing than `id` already uses `registration`. */
  predicate RegistrationTaken(rows: map<Id, RealEstate>, registration: string, except: Option<Id>) {
    exists k :: k in rows && Some(k) != except && rows[k].registration == registration
  }

  // ---------------------------------------------------------------------
  // The service

  class RealestatesService {
    const prisma: Database

    constructor (prisma: Database)
      ensures this.prisma == prisma
    {
      this.prisma := prisma;
    }

    /** Create a listing owned by the requester.  A taken registration is a
        BadRequest before any upload or write; a failed upload is an
        InternalServerError with no write. */
    method Create(data: RealEstateInput, requesterId: Id, upload: Upload) returns (r: Result<RealEstate>)
      requires prisma.Valid()
      modifies prisma`realEstates
      ensures prisma.Valid()
      ensures RegistrationTaken(old(prisma.realEstates.rows), data.registration, None) ==>
                r == Err(BadRequest) && prisma.realEstates == old(prisma.realEstates)
      ensures !RegistrationTaken(old(prisma.realEstates.rows), data.registration, None) && upload.UploadFailed? ==>
                r == Err(InternalServerError) && prisma.realEstates == old(prisma.realEstates)
      ensures !RegistrationTaken(old(prisma.realEstates.rows), data.registration, None) && !upload.UploadFailed? ==>
                && r.Ok? && r.value.id == old(prisma.realEstates.nextId)
                && CreatedFrom(r.value, data, requesterId, if upload.Uploaded? then upload.urls else [])
                && prisma.realEstates == old(prisma.realEstates).Insert(r.value)
    {
      if k :| k in prisma.realEstates.rows && prisma.realEstates.rows[k].registration == data.registration {
        return Err(BadRequest);
      }
      var images: seq<string> := [];
      match upload {
        case UploadFailed => return Err(InternalServerError);
        case Uploaded(urls) => images := urls;
        case NoFiles =>
      }
      var created := RealEstate(
        prisma.realEstates.nextId, data.registration,
        data.street, data.number, data.complement, data.district, data.zipCode, data.city, data.state,
        data.builtArea, data.totalArea, data.bedrooms, data.bathrooms, data.livingRooms, data.kitchens,
        Truthy(data.garage), data.estateType, data.description, data.salePrice,
        Truthy(data.status), Truthy(data.yard), Truthy(data.pool), Truthy(data.isPosted),
        images, 0, Some(requesterId));
      prisma.realEstates := prisma.realEstates.Insert(created);
      r := Ok(created);
    }

    /** The requester's listings, most viewed first. */
    method FindAll(userId: Id) returns (r: seq<RealEstate>)
      requires prisma.Valid()
      ensures ListsExactly(r, prisma.realEstates.rows, (e: RealEstate) => e.userId == Some(userId))
      ensures ByViewsDescending(r)
    {
      var rows := Select(prisma.realEstates.rows, (e: RealEstate) => e.userId == Some(userId));
      SortedListsExactly(rows, prisma.realEstates.rows, (e: RealEstate) => e.userId == Some(userId));
      r := SortByViews(rows);
    }

    /** The listings marked available, most viewed first. */
    method FindAllAvailable() returns (r: seq<RealEstate>)
      requires prisma.Valid()
      ensures ListsExactly(r, prisma.realEstates.rows, (e: RealEstate) => e.status)
      ensures ByViewsDescending(r)
    {
      var rows := Select(prisma.realEstates.rows, (e: RealEstate) => e.status);
      SortedListsExactly(rows, prisma.realEstates.rows, (e: RealEstate) => e.status);
      r := SortByViews(rows);
    }

    /** The detail view: returns the listing as it was read and stores its
        view count increased by one. */
    method FindOne(id: Id) returns (r: Result<RealEstate>)
      requires prisma.Valid()
      modifies prisma`realEstates
      ensures prisma.Valid()
      ensures id !in old(prisma.realEstates.rows) ==>
                r == Err(NotFound) && prisma.realEstates == old(prisma.realEstates)
      ensures id in old(prisma.realEstates.rows) ==>
                && r == Ok(old(prisma.realEstates.rows[id]))
                && prisma.realEstates == CountView(old(prisma.realEstates), id)
    {
      if id !in prisma.realEstates.rows {
        return Err(NotFound);
      }
      r := Ok(prisma.realEstates.rows[id]);
      prisma.realEstates := CountView(prisma.realEstates, id);
    }

    /** The listings whose type contains `t`, ignoring case. */
    method SearchRealEstate(t: string) returns (r: seq<RealEstate>)
      requires prisma.Valid()
      ensures ListsExactly(r, prisma.realEstates.rows, (e: RealEstate) => Strings.OccursIgnoringCase(t, e.estateType))
    {
      r := Select(prisma.realEstates.rows, (e: RealEstate) => Strings.ContainsIgnoringCase(e.estateType, t));
      forall e: RealEstate
        ensures Strings.ContainsIgnoringCase(e.estateType, t) <==> Strings.OccursIgnoringCase(t, e.estateType)
      {
        Strings.ContainsIgnoringCaseIsOccurrence(e.estateType, t);
      }
    }

    /** The listings that meet every filter given. */
    method AdvanceSearch(filters: SearchFilters) returns (r: seq<RealEstate>)
      requires prisma.Valid()
      ensures ListsExactly(r, prisma.realEstates.rows, (e: RealEstate) => AdvanceCriteria(filters, e))
    {
      var w := AdvanceWhere(filters);
      r := Select(prisma.realEstates.rows, (e: RealEstate) => Satisfies(e, w));
    }

    /** Update a listing: NotFound for an unknown id; otherwise the merged
        row, with the uploaded images when files were given and the old ones
        otherwise.  A failed upload, or a registration another listing
        holds, is an InternalServerError with no write. */
    method Update(id: Id, data: RealEstatePatch, upload: Upload) returns (r: Result<RealEstate>)
      requires prisma.Valid()
      modifies prisma`realEstates
      ensures prisma.Valid()
      ensures id !in old(prisma.realEstates.rows) ==>
                r == Err(NotFound) && prisma.realEstates == old(prisma.realEstates)
      ensures id in old(prisma.realEstates.rows) && upload.UploadFailed? ==>
                r == Err(InternalServerError) && prisma.realEstates == old(prisma.realEstates)
      ensures id in old(prisma.realEstates.rows) && !upload.UploadFailed? ==>
                var e := old(prisma.realEstates.rows[id]);
                var m := Merged(e, data, if upload.Uploaded? then upload.urls else e.images);
                if RegistrationTaken(old(prisma.realEstates.rows), m.registration, Some(id))
                then r == Err(InternalServerError) && prisma.realEstates == old(prisma.realEstates)
                else r == Ok(m) && prisma.realEstates == old(prisma.realEstates).(rows := old(prisma.realEstates.rows)[id := m])
    {
      if id !in prisma.realEstates.rows {
        return Err(NotFound);
      }
      var existing := prisma.realEstates.rows[id];
      var images := existing.images;
      match upload {
        case UploadFailed => return Err(InternalServerError);
        case Uploaded(urls) => images := urls;
        case NoFiles =>
      }
      var updated := Merged(existing, data, images);
      if k :| k in prisma.realEstates.rows && k != id && prisma.realEstates.rows[k].registration == updated.registration {
        return Err(InternalServerError);
      }
      prisma.realEstates := prisma.realEstates.(rows := prisma.realEstates.rows[id := updated]);
      r := Ok(updated);
    }

    /** Delete a listing; an unknown id is an InternalServerError. */
    method Remove(id: Id) returns (r: Result<RealEstate>)
      requires prisma.Valid()
      modifies prisma`realEstates
      ensures prisma.Valid()
      ensures id !in old(prisma.realEstates.rows) ==>
                r == Err(InternalServerError) && prisma.realEstates == old(prisma.realEstates)
      ensures id in old(prisma.realEstates.rows) ==>
                r == Ok(old(prisma.realEstates.rows[id])) && prisma.realEstates == old(prisma.realEstates).Delete({id})
    {
      if id !in prisma.realEstates.rows {
        return Err(InternalServerError);
      }
      r := Ok(prisma.realEstates.rows[id]);
      prisma.realEstates := prisma.realEstates.Delete({id});
    }

    /** The rows of the listing report (the PDF rendering is not modelled). */
    method ReportListings(filters: ReportFilters, userId: Id) returns (r: seq<RealEstate>)
      requires prisma.Valid()
      ensures ListsExactly(r, prisma.realEstates.rows, (e: RealEstate) => ReportCriteria(filters, userId, e))
    {
      var w := ReportWhere(filters, userId);
      r := Select(prisma.realEstates.rows, (e: RealEstate) => Satisfies(e, w));
    }
  }
}
