/**
 * The idea endpoints of the Express server: the parameterised query that `GET /api/ideas`
 * builds from its optional filters, the decoding of the rows it returns, and the validation
 * and encoding that `POST /api/ideas` applies before its insert.
 *
 * A request field is `None` when absent; JavaScript's `if (x)` / `x || d` on such a field
 * tests "present and not empty". `JSON.stringify` and `JSON.parse` on string lists are passed
 * in as functions; a parse that throws is `None`.
 */
module Ideas {
  import opened Wrappers

  /** `v || null`: the value when truthy, otherwise `null`. */
  function OrNull(v: Option<string>): (r: Option<string>)
    ensures r.Some? <==> Truthy(v)
    ensures r.Some? ==> r == v
  {
    if Truthy(v) then v else None
  }

  // ---------------------------------------------------------------------------------------
  // GET /api/ideas: the query

  const SELECT_PREFIX := "SELECT * FROM ideas WHERE 1=1"
  const ORDER_SUFFIX := " ORDER BY id DESC"

  /** The three filters the handler reads from the query string. */
  datatype IdeaFilters = IdeaFilters(industry: Option<string>, ideaType: Option<string>,
                                     difficulty: Option<string>)

  /** The filterable columns, each with the value supplied for it, in the order the handler tests them. */
  function FilterColumns(f: IdeaFilters): seq<(string, Option<string>)> {
    [("industry", f.industry), ("type", f.ideaType), ("difficulty", f.difficulty)]
  }

  /** The pair a filter contributes: its column and value when it is present and non-empty, else nothing. */
  function Supply(column: string, v: Option<string>): (r: seq<(string, string)>)
    ensures Truthy(v) ==> r == [(column, v.value)]
    ensures !Truthy(v) <==> r == []
  {
    if Truthy(v) then [(column, v.value)] else []
  }

  /** The (column, value) pairs of the filters that were supplied, in column order. */
  function Supplied(cols: seq<(string, Option<string>)>): (r: seq<(string, string)>)
    ensures |r| <= |cols|
  {
    if cols == [] then []
    else Supply(cols[0].0, cols[0].1) + Supplied(cols[1..])
  }

  /** The condition the handler appends for one supplied column. */
  function Condition(column: string): (c: string)
    ensures |c| == |column| + 9
  {
    " AND " + column + " = ?"
  }

  /** One condition per supplied filter, in order. */
  function Conditions(pairs: seq<(string, string)>): (c: string)
    ensures c == "" <==> pairs == []
    ensures |c| >= 9 * |pairs|
  {
    if pairs == [] then "" else Condition(pairs[0].0) + Conditions(pairs[1..])
  }

  lemma {:induction false} ConditionsAppend(a: seq<(string, string)>, b: seq<(string, string)>)
    ensures Conditions(a + b) == Conditions(a) + Conditions(b)
  {
    if a == [] {
      assert a + b == b;
    } else {
      assert (a + b)[0] == a[0];
      assert (a + b)[1..] == a[1..] + b;
      ConditionsAppend(a[1..], b);
    }
  }

  /** Appending one condition to a query text extends its conditions by that column and its values by that value. */
  lemma AppendCondition(prefix: string, pairs: seq<(string, string)>, column: string, value: string)
    ensures prefix + Conditions(pairs) + Condition(column)
            == prefix + Conditions(pairs + [(column, value)])
    ensures Values(pairs) + [value] == Values(pairs + [(column, value)])
  {
    assert prefix + Conditions(pairs) + Condition(column) == prefix + Conditions(pairs + [(column, value)]) by {
      ConditionsAppend(pairs, [(column, value)]);
      assert Conditions([(column, value)]) == Condition(column) + Conditions([]);
    }
    assert Values(pairs) + [value] == Values(pairs + [(column, value)]) by {
      ValuesAppend(pairs, [(column, value)]);
    }
  }

  lemma {:induction false} ValuesAppend(a: seq<(string, string)>, b: seq<(string, string)>)
    ensures Values(a + b) == Values(a) + Values(b)
  {
  }

  /** The values bound to the placeholders, in order. */
  function Values(pairs: seq<(string, string)>): (r: seq<string>)
    ensures |r| == |pairs|
    ensures forall i :: 0 <= i < |pairs| ==> r[i] == pairs[i].1
  {
    if pairs == [] then [] else [pairs[0].1] + Values(pairs[1..])
  }

  /** The three conditions as the handler spells them. */
  lemma ConditionTexts()
    ensures Condition("industry") == " AND industry = ?"
    ensures Condition("type") == " AND type = ?"
    ensures Condition("difficulty") == " AND difficulty = ?"
  {
  }

  /** Number of `?` placeholders in a SQL text. */
  function Placeholders(s: string): nat {
    multiset(s)['?']
  }

  /** Every supplied condition carries exactly one placeholder, so they match the values one to one. */
  lemma {:induction false} ConditionsPlaceholders(pairs: seq<(string, string)>)
    requires forall i :: 0 <= i < |pairs| ==> '?' !in pairs[i].0
    ensures Placeholders(Conditions(pairs)) == |Values(pairs)|
  {
    if pairs != [] {
      var c, rest := Condition(pairs[0].0), Conditions(pairs[1..]);
      ConditionsPlaceholders(pairs[1..]);
      ConditionPlaceholder(pairs[0].0);
      assert multiset(c + rest) == multiset(c) + multiset(rest);
    }
  }

  /** A condition on a column without `?` carries exactly one placeholder. */
  lemma ConditionPlaceholder(column: string)
    requires '?' !in column
    ensures Placeholders(Condition(column)) == 1
  {
    assert multiset(Condition(column)) == multiset(" AND ") + multiset(column) + multiset(" = ?");
    assert multiset(column)['?'] == 0;
  }

  /** The supplied filters of a request, unfolded: industry, type, difficulty, each when present and non-empty. */
  lemma SuppliedFilters(f: IdeaFilters)
    ensures Supplied(FilterColumns(f)) ==
            [] + Supply("industry", f.industry) + Supply("type", f.ideaType) + Supply("difficulty", f.difficulty)
  {
    var cols := FilterColumns(f);
    var a := Supply("industry", f.industry);
    var b := Supply("type", f.ideaType);
    var c := Supply("difficulty", f.difficulty);
    assert cols[1..][1..][1..] == [];
    calc {
      Supplied(cols);
      a + Supplied(cols[1..]);
      a + (b + Supplied(cols[1..][1..]));
      a + (b + (c + Supplied(cols[1..][1..][1..])));
      a + (b + (c + []));
    }
    assert c + [] == c;
    assert [] + a == a;
  }

  /** At most three filters are supplied, and no column name holds a placeholder. */
  lemma SuppliedColumns(f: IdeaFilters)
    ensures |Supplied(FilterColumns(f))| ==
            (if Truthy(f.industry) then 1 else 0) + (if Truthy(f.ideaType) then 1 else 0)
            + (if Truthy(f.difficulty) then 1 else 0)
    ensures forall i :: 0 <= i < |Supplied(FilterColumns(f))| ==>
              '?' !in Supplied(FilterColumns(f))[i].0
  {
    SuppliedFilters(f);
    var a, b, c := Supply("industry", f.industry), Supply("type", f.ideaType), Supply("difficulty", f.difficulty);
    var pairs := Supplied(FilterColumns(f));
    assert pairs == a + b + c;
    assert |a| == (if Truthy(f.industry) then 1 else 0);
    assert |b| == (if Truthy(f.ideaType) then 1 else 0);
    assert |c| == (if Truthy(f.difficulty) then 1 else 0);
    ColumnNamesHaveNoPlaceholder();
    forall i | 0 <= i < |pairs| ensures '?' !in pairs[i].0 {
      if i < |a| {
        assert pairs[i].0 == a[i].0 == "industry";
      } else if i < |a| + |b| {
        assert pairs[i].0 == b[i - |a|].0 == "type";
      } else {
        assert pairs[i].0 == c[i - |a| - |b|].0 == "difficulty";
      }
    }
  }

  /** No filterable column name holds a placeholder. */
  lemma ColumnNamesHaveNoPlaceholder()
    ensures '?' !in "industry" && '?' !in "type" && '?' !in "difficulty"
  {
  }

  /** The fixed parts of the query hold no placeholder. */
  lemma FixedTextsHaveNoPlaceholder()
    ensures '?' !in SELECT_PREFIX && '?' !in ORDER_SUFFIX
  {
  }

  /** A query built as prefix, conditions, suffix begins and ends with those and has one placeholder per value. */
  lemma QueryShape(prefix: string, pairs: seq<(string, string)>, suffix: string)
    requires '?' !in prefix && '?' !in suffix
    requires forall i :: 0 <= i < |pairs| ==> '?' !in pairs[i].0
    ensures var sql := prefix + Conditions(pairs) + suffix;
            sql[..|prefix|] == prefix && sql[|sql| - |suffix|..] == suffix
            && Placeholders(sql) == |Values(pairs)|
  {
    var c := Conditions(pairs);
    var sql := prefix + c + suffix;
    assert sql[..|prefix|] == prefix;
    assert sql[|sql| - |suffix|..] == suffix;
    ConditionsPlaceholders(pairs);
    assert multiset(sql) == multiset(prefix) + multiset(c) + multiset(suffix);
    assert multiset(prefix)['?'] == 0 && multiset(suffix)['?'] == 0;
  }

  /** One filter step keeps the text and the parameters in step with the supplied pairs. */
  lemma ExtendQuery(sql: string, ps: seq<string>, pairs: seq<(string, string)>, column: string, v: Option<string>)
    requires sql == SELECT_PREFIX + Conditions(pairs) && ps == Values(pairs)
    ensures (if Truthy(v) then sql + Condition(column) else sql)
            == SELECT_PREFIX + Conditions(pairs + Supply(column, v))
    ensures (if Truthy(v) then ps + [v.value] else ps) == Values(pairs + Supply(column, v))
  {
    if Truthy(v) {
      AppendCondition(SELECT_PREFIX, pairs, column, v.value);
    } else {
      assert pairs + Supply(column, v) == pairs;
    }
  }

  /** The handler's finished query begins with the prefix, ends with the suffix and has one placeholder per parameter. */
  lemma FinishQuery(f: IdeaFilters, sql: string, ps: seq<string>)
    requires sql == SELECT_PREFIX + Conditions(Supplied(FilterColumns(f))) + ORDER_SUFFIX
    requires ps == Values(Supplied(FilterColumns(f)))
    ensures sql[..|SELECT_PREFIX|] == SELECT_PREFIX
    ensures sql[|sql| - |ORDER_SUFFIX|..] == ORDER_SUFFIX
    ensures Placeholders(sql) == |ps|
  {
    SuppliedColumns(f);
    FixedTextsHaveNoPlaceholder();
    QueryShape(SELECT_PREFIX, Supplied(FilterColumns(f)), ORDER_SUFFIX);
  }

  /**
   * The `GET /api/ideas` handler's query: the fixed prefix, then one ` AND <column> = ?` per
   * supplied filter in the order industry, type, difficulty, then the ORDER BY suffix; one
   * parameter per placeholder, the i-th the value of the i-th supplied filter.
   */
  method BuildIdeasQuery(f: IdeaFilters) returns (sql: string, ps: seq<string>)
    ensures sql == SELECT_PREFIX + Conditions(Supplied(FilterColumns(f))) + ORDER_SUFFIX
    ensures |ps| == |Supplied(FilterColumns(f))|
    ensures ps == Values(Supplied(FilterColumns(f)))
    ensures sql[..|SELECT_PREFIX|] == SELECT_PREFIX
    ensures sql[|sql| - |ORDER_SUFFIX|..] == ORDER_SUFFIX
    ensures Placeholders(sql) == |ps|
  {
    ghost var pairs: seq<(string, string)> := [];
    sql := SELECT_PREFIX;
    ps := [];
    ExtendQuery(sql, ps, pairs, "industry", f.industry);
    if Truthy(f.industry) {
      sql := sql + Condition("industry");
      ps := ps + [f.industry.value];
    }
    pairs := pairs + Supply("industry", f.industry);
    ExtendQuery(sql, ps, pairs, "type", f.ideaType);
    if Truthy(f.ideaType) {
      sql := sql + Condition("type");
      ps := ps + [f.ideaType.value];
    }
    pairs := pairs + Supply("type", f.ideaType);
    ExtendQuery(sql, ps, pairs, "difficulty", f.difficulty);
    if Truthy(f.difficulty) {
      sql := sql + Condition("difficulty");
      ps := ps + [f.difficulty.value];
    }
    pairs := pairs + Supply("difficulty", f.difficulty);
    SuppliedFilters(f);
    sql := sql + ORDER_SUFFIX;
    FinishQuery(f, sql, ps);
  }

  /** With no filter supplied the query is the prefix and the suffix alone, with no parameters. */
  lemma UnfilteredQuery(f: IdeaFilters)
    requires !Truthy(f.industry) && !Truthy(f.ideaType) && !Truthy(f.difficulty)
    ensures Supplied(FilterColumns(f)) == []
    ensures SELECT_PREFIX + Conditions(Supplied(FilterColumns(f))) + ORDER_SUFFIX
            == "SELECT * FROM ideas WHERE 1=1 ORDER BY id DESC"
  {
    SuppliedFilters(f);
    assert Supplied(FilterColumns(f)) == [];
    assert SELECT_PREFIX + Conditions([]) == SELECT_PREFIX;
    UnfilteredText();
  }

  /** The prefix and the suffix spell the unfiltered query. */
  lemma UnfilteredText()
    ensures SELECT_PREFIX + ORDER_SUFFIX == "SELECT * FROM ideas WHERE 1=1 ORDER BY id DESC"
  {
  }

  // ---------------------------------------------------------------------------------------
  // Rows and ideas

  /** A row of the `ideas` table as the driver returns it; the list columns hold JSON text. */
  datatype IdeaRow = IdeaRow(
    id: int, title: string, description: Option<string>, industry: Option<string>,
    ideaType: Option<string>, difficulty: Option<string>, roles: Option<string>,
    technologies: Option<string>, similarProjects: Option<string>, duration: Option<string>)

  /** An idea as the handlers answer with it, list columns decoded. */
  datatype Idea = Idea(
    id: int, title: string, description: Option<string>, industry: Option<string>,
    ideaType: Option<string>, difficulty: Option<string>, roles: seq<string>,
    technologies: seq<string>, similarProjects: seq<string>, duration: Option<string>)

  /** The text the GET handler hands to `JSON.parse` for a list column: `r.col || '[]'`. */
  function ListText(column: Option<string>): (t: string)
    ensures Truthy(column) ==> t == column.value
    ensures !Truthy(column) ==> t == "[]"
  {
    if Truthy(column) then column.value else "[]"
  }

  /** One row as the GET handler maps it; `None` when a `JSON.parse` throws. */
  function DecodeRow(r: IdeaRow, parse: string -> Option<seq<string>>): (d: Option<Idea>)
    ensures d.Some? <==> parse(ListText(r.roles)).Some? && parse(ListText(r.technologies)).Some?
                         && parse(ListText(r.similarProjects)).Some?
    ensures d.Some? ==> d.value.id == r.id && d.value.title == r.title
                        && d.value.description == r.description && d.value.industry == r.industry
                        && d.value.ideaType == r.ideaType && d.value.difficulty == r.difficulty
    ensures d.Some? ==> d.value.roles == parse(ListText(r.roles)).value
                        && d.value.technologies == parse(ListText(r.technologies)).value
                        && d.value.similarProjects == parse(ListText(r.similarProjects)).value
    ensures d.Some? ==> d.value.duration == OrNull(r.duration)
  {
    var roles := parse(ListText(r.roles));
    var technologies := parse(ListText(r.technologies));
    var similar := parse(ListText(r.similarProjects));
    if roles.Some? && technologies.Some? && similar.Some? then
      Some(Idea(r.id, r.title, r.description, r.industry, r.ideaType, r.difficulty,
                roles.value, technologies.value, similar.value, OrNull(r.duration)))
    else None
  }

  /**
   * `rows.map(...)` of the GET handler: every row decoded, in order; one row whose list text
   * does not parse makes the whole map throw.
   */
  function DecodeRows(rows: seq<IdeaRow>, parse: string -> Option<seq<string>>): (d: Option<seq<Idea>>)
    ensures d.Some? <==> forall i :: 0 <= i < |rows| ==> DecodeRow(rows[i], parse).Some?
    ensures d.Some? ==> |d.value| == |rows|
                        && forall i :: 0 <= i < |rows| ==> d.value[i] == DecodeRow(rows[i], parse).value
  {
    if rows == [] then Some([])
    else
      match (DecodeRow(rows[0], parse), DecodeRows(rows[1..], parse))
      case (Some(first), Some(rest)) => Some([first] + rest)
      case _ => None
  }

  /** A missing or empty list column reads as the empty list, given that `JSON.parse('[]')` is `[]`. */
  lemma EmptyListColumns(r: IdeaRow, parse: string -> Option<seq<string>>)
    requires parse("[]") == Some([])
    requires !Truthy(r.roles) && !Truthy(r.technologies) && !Truthy(r.similarProjects)
    ensures DecodeRow(r, parse).Some?
    ensures DecodeRow(r, parse).value.roles == [] && DecodeRow(r, parse).value.technologies == []
            && DecodeRow(r, parse).value.similarProjects == []
  {
  }

  // ---------------------------------------------------------------------------------------
  // POST /api/ideas

  /** The fields of the request body, lists already as lists. */
  datatype IdeaPayload = IdeaPayload(
    title: Option<string>, description: Option<string>, industry: Option<string>,
    ideaType: Option<string>, difficulty: Option<string>, roles: Option<seq<string>>,
    technologies: Option<seq<string>>, similarProjects: Option<seq<string>>,
    duration: Option<string>)

  /** The nine values bound to the INSERT's placeholders, in order. */
  datatype InsertValues = InsertValues(
    title: string, description: Option<string>, industry: string, ideaType: string,
    difficulty: Option<string>, roles: string, technologies: string, similarProjects: string,
    duration: Option<string>)

  /** The text of the 400 answer. */
  const REQUIRED_FIELDS_MESSAGE := "Title, industry, and type are required"

  /**
   * The POST handler up to its insert: refuse unless title, industry and type are all
   * present and non-empty (description is optional); otherwise bind the falsy optional
   * fields as NULL and the list fields, defaulting to `[]`, as JSON text.
   */
  function PrepareInsert(body: IdeaPayload, stringify: seq<string> -> string): (r: Result<InsertValues, string>)
    ensures r.Err? <==> !Truthy(body.title) || !Truthy(body.industry) || !Truthy(body.ideaType)
    ensures r.Err? ==> r.error == REQUIRED_FIELDS_MESSAGE
    ensures r.Ok? ==> Some(r.value.title) == body.title && Some(r.value.industry) == body.industry
                      && Some(r.value.ideaType) == body.ideaType
    ensures r.Ok? ==> r.value.description == OrNull(body.description)
                      && r.value.difficulty == OrNull(body.difficulty)
                      && r.value.duration == OrNull(body.duration)
    ensures r.Ok? ==> r.value.roles == stringify(body.roles.GetOr([]))
                      && r.value.technologies == stringify(body.technologies.GetOr([]))
                      && r.value.similarProjects == stringify(body.similarProjects.GetOr([]))
  {
    if !Truthy(body.title) || !Truthy(body.industry) || !Truthy(body.ideaType) then
      Err(REQUIRED_FIELDS_MESSAGE)
    else
      Ok(InsertValues(body.title.value, OrNull(body.description), body.industry.value,
                      body.ideaType.value, OrNull(body.difficulty),
                      stringify(body.roles.GetOr([])), stringify(body.technologies.GetOr([])),
                      stringify(body.similarProjects.GetOr([])), OrNull(body.duration)))
  }

  /** The row the database holds after the insert, under the id it assigned. */
  function InsertedRow(id: int, v: InsertValues): IdeaRow {
    IdeaRow(id, v.title, v.description, Some(v.industry), Some(v.ideaType), v.difficulty,
            Some(v.roles), Some(v.technologies), Some(v.similarProjects), v.duration)
  }

  /** The POST handler's answer for the re-read row: list columns parsed as stored, without a default. */
  function DecodeCreated(r: IdeaRow, parse: string -> Option<seq<string>>): (d: Option<Idea>)
    ensures d.Some? <==> r.roles.Some? && r.technologies.Some? && r.similarProjects.Some?
                         && parse(r.roles.value).Some? && parse(r.technologies.value).Some?
                         && parse(r.similarProjects.value).Some?
    ensures d.Some? ==> d.value.id == r.id && d.value.title == r.title
                        && d.value.description == r.description && d.value.industry == r.industry
                        && d.value.ideaType == r.ideaType && d.value.difficulty == r.difficulty
    ensures d.Some? ==> d.value.roles == parse(r.roles.value).value
                        && d.value.technologies == parse(r.technologies.value).value
                        && d.value.similarProjects == parse(r.similarProjects.value).value
    ensures d.Some? ==> d.value.duration == OrNull(r.duration)
  {
    if r.roles.Some? && r.technologies.Some? && r.similarProjects.Some? then
      var roles := parse(r.roles.value);
      var technologies := parse(r.technologies.value);
      var similar := parse(r.similarProjects.value);
      if roles.Some? && technologies.Some? && similar.Some? then
        Some(Idea(r.id, r.title, r.description, r.industry, r.ideaType, r.difficulty,
                  roles.value, technologies.value, similar.value, OrNull(r.duration)))
      else None
    else None
  }

  /**
   * Round trip: when `JSON.parse` inverts `JSON.stringify` (whose output is never empty), the
   * created idea carries the submitted lists, `[]` for an omitted one, and a later query
   * decodes the stored row exactly as the creation answer did.
   */
  lemma CreateThenQuery(body: IdeaPayload, id: int, stringify: seq<string> -> string,
                        parse: string -> Option<seq<string>>)
    requires forall xs :: parse(stringify(xs)) == Some(xs)
    requires forall xs :: stringify(xs) != ""
    requires PrepareInsert(body, stringify).Ok?
    ensures var row := InsertedRow(id, PrepareInsert(body, stringify).value);
            DecodeCreated(row, parse).Some? && DecodeRow(row, parse) == DecodeCreated(row, parse)
            && DecodeCreated(row, parse).value.roles == body.roles.GetOr([])
            && DecodeCreated(row, parse).value.technologies == body.technologies.GetOr([])
            && DecodeCreated(row, parse).value.similarProjects == body.similarProjects.GetOr([])
            && DecodeCreated(row, parse).value.title == body.title.value
  {
    var v := PrepareInsert(body, stringify).value;
    assert parse(stringify(body.roles.GetOr([]))) == Some(body.roles.GetOr([]));
    assert parse(stringify(body.technologies.GetOr([]))) == Some(body.technologies.GetOr([]));
    assert parse(stringify(body.similarProjects.GetOr([]))) == Some(body.similarProjects.GetOr([]));
    assert stringify(body.roles.GetOr([])) != "";
    assert stringify(body.technologies.GetOr([])) != "";
    assert stringify(body.similarProjects.GetOr([])) != "";
  }
}
