/** The content API: GET and POST of /api/thoughts
    (src/app/api/thoughts/route.ts) and /api/documents
    (src/app/api/documents/route.ts). The listing handlers assemble a
    parameterised SQL text; the create handlers validate, derive a slug
    from the title and fill in defaults. Characters are assumed ASCII, so
    `toLowerCase` is ASCII case folding. */
module Content {
  import opened Common

  // ---------------------------------------------------------------------
  // Slugs

  /** A character `[a-z0-9]` keeps. */
  predicate IsSlugChar(c: char) {
    'a' <= c <= 'z' || '0' <= c <= '9'
  }

  predicate SlugCharsOnly(s: string) {
    forall i | 0 <= i < |s| :: IsSlugChar(s[i]) || s[i] == '-'
  }

  predicate NoDoubleHyphen(s: string) {
    forall i | 0 <= i < |s| - 1 :: !(s[i] == '-' && s[i + 1] == '-')
  }

  predicate NoEdgeHyphen(s: string) {
    s == [] || (s[0] != '-' && s[|s| - 1] != '-')
  }

  /** What a well-formed slug looks like. */
  predicate IsSlug(s: string) {
    SlugCharsOnly(s) && NoDoubleHyphen(s) && NoEdgeHyphen(s)
  }

  /** `s` with its leading run of non-slug characters removed. */
  function SkipRun(s: string): (r: string)
    ensures |r| <= |s| && (r == [] || IsSlugChar(r[0]))
    ensures r == s[|s| - |r|..]
  {
    if s == [] || IsSlugChar(s[0]) then s else SkipRun(s[1..])
  }

  /** `s.replace(/[^a-z0-9]+/g, '-')`: every maximal run of other characters
      becomes one hyphen. */
  function Collapse(s: string): (r: string)
    ensures SlugCharsOnly(r) && NoDoubleHyphen(r)
    ensures s == [] <==> r == []
    ensures s != [] && IsSlugChar(s[0]) ==> r[0] == s[0]
    ensures s != [] && !IsSlugChar(s[0]) ==> r[0] == '-'
    decreases |s|
  {
    if s == [] then []
    else if IsSlugChar(s[0]) then [s[0]] + Collapse(s[1..])
    else "-" + Collapse(SkipRun(s[1..]))
  }

  /** `s.replace(/^-|-$/g, '')`: one leading and one trailing hyphen go. */
  function StripEdges(s: string): (r: string)
    ensures |r| <= |s| <= |r| + 2
    ensures s != [] && s[0] != '-' && s[|s| - 1] != '-' ==> r == s
    ensures s != [] && s[0] == '-' ==> StartsWith(s[1..], r)
  {
    var t := if s != [] && s[0] == '-' then s[1..] else s;
    if t != [] && t[|t| - 1] == '-' then t[..|t| - 1] else t
  }

  /** The slug of a title, as both create handlers compute it. */
  function Slugify(title: string): (slug: string)
    ensures IsSlug(slug)
  {
    var c := Collapse(Lower(title));
    StripEdgesKeepsSlugShape(c);
    StripEdges(c)
  }

  lemma StripEdgesKeepsSlugShape(s: string)
    requires SlugCharsOnly(s) && NoDoubleHyphen(s)
    ensures IsSlug(StripEdges(s))
  {
    var t := if s != [] && s[0] == '-' then s[1..] else s;
    assert SlugCharsOnly(t) && NoDoubleHyphen(t);
    if s != [] && s[0] == '-' && |s| > 1 {
      assert s[1] != '-';
    }
    var r := StripEdges(s);
    if t != [] && t[|t| - 1] == '-' && |t| > 1 {
      assert t[|t| - 2] != '-';
    }
  }

  /** Only slug characters and no hyphen run survive lower-casing, so a
      slug lower-cases to itself. */
  lemma LowerOfSlug(s: string)
    requires SlugCharsOnly(s)
    ensures Lower(s) == s
  {
  }

  /** Collapsing changes nothing in a text with no two hyphens in a row. */
  lemma {:induction false} CollapseOfSlug(s: string)
    requires SlugCharsOnly(s) && NoDoubleHyphen(s)
    ensures Collapse(s) == s
    decreases |s|
  {
    if s != [] {
      CollapseOfSlug(s[1..]);
      if !IsSlugChar(s[0]) {
        assert s[0] == '-';
        assert SkipRun(s[1..]) == s[1..] by {
          if s[1..] != [] {
            assert s[1] != '-';
          }
        }
      }
    }
  }

  /** Slugifying a slug returns it unchanged. */
  lemma SlugifyIdempotent(title: string)
    ensures Slugify(Slugify(title)) == Slugify(title)
  {
    var s := Slugify(title);
    LowerOfSlug(s);
    CollapseOfSlug(s);
  }

  /** The characters a slug keeps, in order. */
  function Kept(s: string): (r: string)
    ensures forall i | 0 <= i < |r| :: IsSlugChar(r[i])
  {
    if s == [] then []
    else if IsSlugChar(s[0]) then [s[0]] + Kept(s[1..])
    else Kept(s[1..])
  }

  lemma {:induction false} KeptAppend(a: string, b: string)
    ensures Kept(a + b) == Kept(a) + Kept(b)
    decreases |a|
  {
    if a == [] {
      assert a + b == b;
    } else {
      assert (a + b)[1..] == a[1..] + b;
      KeptAppend(a[1..], b);
    }
  }

  lemma {:induction false} KeptSkipRun(s: string)
    ensures Kept(SkipRun(s)) == Kept(s)
    decreases |s|
  {
    if s != [] && !IsSlugChar(s[0]) {
      KeptSkipRun(s[1..]);
    }
  }

  lemma {:induction false} KeptCollapse(s: string)
    ensures Kept(Collapse(s)) == Kept(s)
    decreases |s|
  {
    if s != [] {
      if IsSlugChar(s[0]) {
        KeptAppend([s[0]], Collapse(s[1..]));
        KeptCollapse(s[1..]);
      } else {
        KeptAppend("-", Collapse(SkipRun(s[1..])));
        KeptCollapse(SkipRun(s[1..]));
        KeptSkipRun(s[1..]);
      }
    }
  }

  lemma KeptStripEdges(s: string)
    ensures Kept(StripEdges(s)) == Kept(s)
  {
    var t := if s != [] && s[0] == '-' then s[1..] else s;
    if s != [] && s[0] == '-' {
      KeptAppend("-", s[1..]);
      assert s == "-" + s[1..];
    }
    if t != [] && t[|t| - 1] == '-' {
      KeptAppend(t[..|t| - 1], "-");
      assert t == t[..|t| - 1] + "-";
    }
  }

  /** The slug keeps exactly the title's lower-cased letters and digits, in
      order; everything else only ever becomes a separating hyphen. */
  lemma SlugKeepsAlphanumerics(title: string)
    ensures Kept(Slugify(title)) == Kept(Lower(title))
  {
    KeptCollapse(Lower(title));
    KeptStripEdges(Collapse(Lower(title)));
  }

  /** A title without letters or digits gives the empty slug. */
  lemma NoAlphanumericsEmptySlug(title: string)
    requires forall i | 0 <= i < |title| :: !IsSlugChar(LowerChar(title[i]))
    ensures Slugify(title) == ""
  {
    var l := Lower(title);
    assert SkipRun(l) == [] by {
      NoneKeptSkipsAll(l);
    }
    if l != [] {
      assert l == [l[0]] + l[1..];
      NoneKeptSkipsAll(l[1..]);
      assert Collapse(l) == "-";
    }
  }

  lemma {:induction false} NoneKeptSkipsAll(s: string)
    requires forall i | 0 <= i < |s| :: !IsSlugChar(s[i])
    ensures SkipRun(s) == []
    decreases |s|
  {
    if s != [] {
      NoneKeptSkipsAll(s[1..]);
    }
  }

  // ---------------------------------------------------------------------
  // Placeholders in a query text

  /** The longest prefix of `s` made of digits. */
  function LeadingDigits(s: string): (d: string)
    ensures |d| <= |s| && d == s[..|d|] && AllDigits(d)
    ensures |d| < |s| ==> !IsDigit(s[|d|])
  {
    if s == [] || !IsDigit(s[0]) then [] else [s[0]] + LeadingDigits(s[1..])
  }

  /** The placeholders of a SQL text, in order of appearance: the digits
      after each '$'. */
  function Placeholders(s: string): seq<string>
    decreases |s|
  {
    if s == [] then []
    else if s[0] == '$' then
      var d := LeadingDigits(s[1..]);
      [d] + Placeholders(s[1 + |d|..])
    else Placeholders(s[1..])
  }

  lemma {:induction false} LeadingDigitsAppend(a: string, b: string)
    requires b == [] || !IsDigit(b[0])
    ensures LeadingDigits(a + b) == LeadingDigits(a)
    decreases |a|
  {
    if a == [] {
    } else if IsDigit(a[0]) {
      assert (a + b)[1..] == a[1..] + b;
      LeadingDigitsAppend(a[1..], b);
    }
  }

  /** Scanning distributes over a split that does not cut a number. */
  lemma {:induction false} PlaceholdersAppend(a: string, b: string)
    requires b == [] || !IsDigit(b[0])
    ensures Placeholders(a + b) == Placeholders(a) + Placeholders(b)
    decreases |a|
  {
    if a == [] {
      assert a + b == b;
    } else if a[0] == '$' {
      var d := LeadingDigits(a[1..]);
      assert (a + b)[1..] == a[1..] + b;
      LeadingDigitsAppend(a[1..], b);
      assert (a + b)[1 + |d|..] == a[1 + |d|..] + b;
      PlaceholdersAppend(a[1 + |d|..], b);
    } else {
      assert (a + b)[1..] == a[1..] + b;
      PlaceholdersAppend(a[1..], b);
    }
  }

  lemma {:induction false} NoDollarNoPlaceholders(s: string)
    requires '$' !in s
    ensures Placeholders(s) == []
    decreases |s|
  {
    if s != [] {
      assert s[0] in s;
      assert forall c | c in s[1..] :: c in s;
      NoDollarNoPlaceholders(s[1..]);
    }
  }

  lemma {:induction false} AllDigitsLead(d: string)
    requires AllDigits(d)
    ensures LeadingDigits(d) == d
    decreases |d|
  {
    if d != [] {
      AllDigitsLead(d[1..]);
    }
  }

  /** A clause whose only '$' is a trailing placeholder `$n`. */
  lemma ClausePlaceholders(text: string, n: nat)
    requires '$' !in text
    ensures Placeholders(text + "$" + NatToString(n)) == [NatToString(n)]
  {
    var d := NatToString(n);
    AllDigitsLead(d);
    assert ("$" + d)[1..] == d;
    assert ("$" + d)[1 + |d|..] == [];
    assert Placeholders("$" + d) == [d];
    assert text + "$" + d == text + ("$" + d);
    PlaceholdersAppend(text, "$" + d);
    NoDollarNoPlaceholders(text);
  }

  // ---------------------------------------------------------------------
  // GET /api/thoughts

  /** The fixed parts of the SQL text, written in pieces short enough for
      the verifier to inspect character by character. */
  const SelectThoughts1 := "\n      SELECT id, slug, title, excerpt, "
  const SelectThoughts2 := "category, tags, author, published_at, "
  const SelectThoughts3 := "created_at\n      FROM thoughts"
  const WherePublished := "\n      WHERE published = true\n    "
  const ThoughtsSelect := SelectThoughts1 + SelectThoughts2 + SelectThoughts3 + WherePublished
  const OrderThoughts1 := " ORDER BY published_at DESC NULLS LAST"
  const OrderThoughts2 := ", created_at DESC"
  const ThoughtsOrder := OrderThoughts1 + OrderThoughts2
  const CategoryFilter := " AND category = "
  const TagFilterEnd := " = ANY(tags)"

  // Each long literal is checked for '$' in a proof of its own, which keeps
  // every proof small.
  lemma SelectThoughts1NoDollar() ensures '$' !in SelectThoughts1 {}
  lemma SelectThoughts2NoDollar() ensures '$' !in SelectThoughts2 {}
  lemma SelectThoughts3NoDollar() ensures '$' !in SelectThoughts3 {}
  lemma WherePublishedNoDollar() ensures '$' !in WherePublished {}
  lemma OrderThoughts1NoDollar() ensures '$' !in OrderThoughts1 {}

  /** The fixed texts of the thoughts query hold no '$'. */
  lemma ThoughtsTextsHaveNoDollar()
    ensures '$' !in ThoughtsSelect && '$' !in ThoughtsOrder
    ensures '$' !in CategoryFilter && '$' !in TagFilterEnd && '$' !in " AND "
  {
    SelectThoughts1NoDollar();
    SelectThoughts2NoDollar();
    SelectThoughts3NoDollar();
    WherePublishedNoDollar();
    OrderThoughts1NoDollar();
  }

  /** The fixed parts of the thoughts query carry no placeholder. */
  lemma ThoughtsFixedTexts()
    ensures Placeholders(ThoughtsSelect) == [] && Placeholders(ThoughtsOrder) == []
    ensures ThoughtsOrder != [] && ThoughtsOrder[0] == ' '
  {
    ThoughtsTextsHaveNoDollar();
    NoDollarNoPlaceholders(ThoughtsSelect);
    NoDollarNoPlaceholders(ThoughtsOrder);
  }

  /** The filters that were given, in the order the handler applies them:
      category, then tag. */
  function ThoughtsParams(category: Option<string>, tag: Option<string>): (ps: seq<string>)
    ensures |ps| == (if Present(category) then 1 else 0) + (if Present(tag) then 1 else 0)
    ensures Present(category) ==> ps[0] == category.value
    ensures Present(tag) ==> ps[|ps| - 1] == tag.value
  {
    (if Present(category) then [category.value] else []) + (if Present(tag) then [tag.value] else [])
  }

  /** The placeholder numbers `1 .. k`, as text. */
  function Numbered(k: nat): (r: seq<string>)
    ensures |r| == k && forall i | 0 <= i < k :: r[i] == NatToString(i + 1)
  {
    if k == 0 then [] else Numbered(k - 1) + [NatToString(k)]
  }

  /** The category clause carries placeholder `$n` and nothing else. */
  lemma CategoryClause(n: nat)
    ensures Placeholders(CategoryFilter + "$" + NatToString(n)) == [NatToString(n)]
  {
    assert '$' !in CategoryFilter;
    ClausePlaceholders(CategoryFilter, n);
  }

  /** The tag clause carries placeholder `$n` and nothing else. */
  lemma TagClause(n: nat)
    ensures Placeholders(" AND $" + NatToString(n) + TagFilterEnd) == [NatToString(n)]
  {
    var d := NatToString(n);
    assert '$' !in " AND ";
    assert '$' !in TagFilterEnd && TagFilterEnd[0] == ' ';
    ClausePlaceholders(" AND ", n);
    assert " AND $" + d == " AND " + "$" + d;
    NoDollarNoPlaceholders(TagFilterEnd);
    PlaceholdersAppend(" AND $" + d, TagFilterEnd);
  }

  /** Appending a clause that carries placeholder `$(k+1)` to a text
      numbered `$1 .. $k` gives a text numbered `$1 .. $(k+1)`. */
  lemma ExtendNumbered(q: string, clause: string, k: nat)
    requires Placeholders(q) == Numbered(k) && Placeholders(clause) == [NatToString(k + 1)]
    requires clause != [] && clause[0] == ' '
    ensures Placeholders(q + clause) == Numbered(k + 1)
  {
    PlaceholdersAppend(q, clause);
  }

  /** `GET /api/thoughts`: the SQL text and its parameters for the optional
      `category` and `tag` query parameters. The placeholders in the text
      are `$1 .. $k`, in order, for the k parameters. */
  method ThoughtsQuery(category: Option<string>, tag: Option<string>) returns (queryText: string, params: seq<string>)
    ensures params == ThoughtsParams(category, tag)
    ensures Placeholders(queryText) == Numbered(|params|)
    ensures queryText == ThoughtsSelect
      + (if Present(category) then CategoryFilter + "$" + NatToString(1) else "")
      + (if Present(tag) then " AND $" + NatToString(|params|) + TagFilterEnd else "")
      + ThoughtsOrder
  {
    ThoughtsFixedTexts();
    queryText, params := AppendFilters(ThoughtsSelect, category, tag);
    PlaceholdersAppend(queryText, ThoughtsOrder);
    queryText := queryText + ThoughtsOrder;
  }

  /** The two optional filters of `GET /api/thoughts`, appended to a query
      text without placeholders: each given filter adds its clause with the
      next placeholder number and its value to the parameters. */
  method AppendFilters(base: string, category: Option<string>, tag: Option<string>)
    returns (queryText: string, params: seq<string>)
    requires Placeholders(base) == []
    ensures params == ThoughtsParams(category, tag)
    ensures Placeholders(queryText) == Numbered(|params|)
    ensures queryText == base
      + (if Present(category) then CategoryFilter + "$" + NatToString(1) else "")
      + (if Present(tag) then " AND $" + NatToString(|params|) + TagFilterEnd else "")
  {
    queryText := base;
    params := [];
    var paramIndex := 1;

    if Present(category) {
      var clause := CategoryFilter + "$" + NatToString(paramIndex);
      CategoryClause(paramIndex);
      ExtendNumbered(queryText, clause, |params|);
      queryText := queryText + clause;
      params := params + [category.value];
      paramIndex := paramIndex + 1;
    }

    if Present(tag) {
      var clause := " AND $" + NatToString(paramIndex) + TagFilterEnd;
      TagClause(paramIndex);
      ExtendNumbered(queryText, clause, |params|);
      queryText := queryText + clause;
      params := params + [tag.value];
      paramIndex := paramIndex + 1;
    }
  }

  // ---------------------------------------------------------------------
  // GET /api/documents

  const SelectDocuments1 := "\n      SELECT id, slug, title, "
  const SelectDocuments2 := "description, type, pdf_url, created_at, "
  const SelectDocuments3 := "updated_at\n      FROM documents"
  const DocumentsSelect := SelectDocuments1 + SelectDocuments2 + SelectDocuments3 + WherePublished
  const TypeFilter := " AND type = $1"
  const DocumentsOrder := " ORDER BY created_at DESC"

  lemma SelectDocuments1NoDollar() ensures '$' !in SelectDocuments1 {}
  lemma SelectDocuments2NoDollar() ensures '$' !in SelectDocuments2 {}
  lemma SelectDocuments3NoDollar() ensures '$' !in SelectDocuments3 {}

  /** The fixed texts of the documents query hold no '$'. */
  lemma DocumentsTextsHaveNoDollar()
    ensures '$' !in DocumentsSelect && '$' !in DocumentsOrder && '$' !in " AND type = "
  {
    SelectDocuments1NoDollar();
    SelectDocuments2NoDollar();
    SelectDocuments3NoDollar();
    WherePublishedNoDollar();
  }

  /** `GET /api/documents`: the SQL text and parameters for the optional
      `type` query parameter. The ORDER BY clause comes last either way. */
  method DocumentsQuery(docType: Option<string>) returns (queryText: string, params: seq<string>)
    ensures Present(docType) ==> queryText == DocumentsSelect + TypeFilter + DocumentsOrder && params == [docType.value]
    ensures !Present(docType) ==> queryText == DocumentsSelect + DocumentsOrder && params == []
    ensures Placeholders(queryText) == Numbered(|params|)
  {
    queryText := DocumentsSelect;
    params := [];
    DocumentsTextsHaveNoDollar();
    NoDollarNoPlaceholders(DocumentsSelect);
    if Present(docType) {
      assert TypeFilter == " AND type = " + "$" + NatToString(1);
      ClausePlaceholders(" AND type = ", 1);
      PlaceholdersAppend(queryText, TypeFilter);
      queryText := queryText + TypeFilter;
      params := params + [docType.value];
    }
    NoDollarNoPlaceholders(DocumentsOrder);
    PlaceholdersAppend(queryText, DocumentsOrder);
    queryText := queryText + DocumentsOrder;
  }

  // ---------------------------------------------------------------------
  // POST handlers

  /** The JSON body of a thought to create; `published` is `None` when the
      field is absent or null. */
  datatype ThoughtInput = ThoughtInput(
    title: Option<string>, excerpt: Option<string>, content: Option<string>, category: Option<string>,
    tags: Option<seq<string>>, author: Option<string>, published: Option<bool>)

  /** The values the insert writes. `publishedAt` is the creation time when
      the thought is published. */
  datatype ThoughtRow = ThoughtRow(
    slug: string, title: string, excerpt: Option<string>, content: string, category: string,
    tags: seq<string>, author: string, published: bool, publishedAt: Option<int>)

  datatype Created<T> = Created(status: int, row: T) | Refused(status: int, error: string)

  /** `POST /api/thoughts` up to the insert: 400 without a title, content or
      category; otherwise status 201 and the row with its defaults. */
  function CreateThought(input: ThoughtInput, now: int): (r: Created<ThoughtRow>)
    ensures r.Refused? <==> !Present(input.title) || !Present(input.content) || !Present(input.category)
    ensures r.Refused? ==> r == Refused(400, "Missing required fields: title, content, category")
    ensures r.Created? ==>
      && r.status == 201
      && r.row.slug == Slugify(input.title.value)
      && r.row.title == input.title.value && r.row.content == input.content.value
      && r.row.category == input.category.value
      && r.row.excerpt == OrNull(input.excerpt)
      && r.row.tags == input.tags.GetOr([])
      && r.row.author == OrElse(input.author, "Riscent")
      && r.row.published == (input.published == Some(true))
      && (r.row.publishedAt.Some? <==> r.row.published)
      && (r.row.published ==> r.row.publishedAt == Some(now))
  {
    if !Present(input.title) || !Present(input.content) || !Present(input.category) then
      Refused(400, "Missing required fields: title, content, category")
    else
      var published := input.published.GetOr(false);
      Created(201, ThoughtRow(
        Slugify(input.title.value), input.title.value, OrNull(input.excerpt), input.content.value,
        input.category.value, input.tags.GetOr([]), OrElse(input.author, "Riscent"), published,
        if published then Some(now) else None))
  }

  /** A thought created without the optional fields gets the documented
      defaults: no excerpt, no tags, author 'Riscent', unpublished. */
  lemma ThoughtDefaults(title: string, content: string, category: string, now: int)
    requires title != "" && content != "" && category != ""
    ensures var r := CreateThought(ThoughtInput(Some(title), None, Some(content), Some(category), None, None, None), now);
      && r.Created? && r.row.excerpt == None && r.row.tags == [] && r.row.author == "Riscent"
      && !r.row.published && r.row.publishedAt == None
  {
  }

  datatype DocumentInput = DocumentInput(
    title: Option<string>, description: Option<string>, docType: Option<string>, content: Option<string>,
    pdfUrl: Option<string>, published: Option<bool>)

  datatype DocumentRow = DocumentRow(
    slug: string, title: string, description: Option<string>, docType: string, content: string,
    pdfUrl: Option<string>, published: bool)

  /** `POST /api/documents` up to the insert: 400 without a title, type or
      content; otherwise status 201 and the row with its defaults. */
  function CreateDocument(input: DocumentInput): (r: Created<DocumentRow>)
    ensures r.Refused? <==> !Present(input.title) || !Present(input.docType) || !Present(input.content)
    ensures r.Refused? ==> r == Refused(400, "Missing required fields: title, type, content")
    ensures r.Created? ==>
      && r.status == 201
      && r.row.slug == Slugify(input.title.value)
      && r.row.title == input.title.value && r.row.docType == input.docType.value
      && r.row.content == input.content.value
      && r.row.description == OrNull(input.description) && r.row.pdfUrl == OrNull(input.pdfUrl)
      && r.row.published == (input.published == Some(true))
  {
    if !Present(input.title) || !Present(input.docType) || !Present(input.content) then
      Refused(400, "Missing required fields: title, type, content")
    else
      Created(201, DocumentRow(
        Slugify(input.title.value), input.title.value, OrNull(input.description), input.docType.value,
        input.content.value, OrNull(input.pdfUrl), input.published.GetOr(false)))
  }
}
