/**
 * The product-matching REST resources (`cfepm/rest.py`): request validation for the match
 * endpoint (`POST /match/{category}`) and for the pair classifier, and the category list with
 * its index by id. Each handler writes the response's body and status, or lets an exception
 * from the back end escape; the JSON reader and writer and the float reader are parameters.
 */
module Rest {
  import opened Common
  import opened PyValues
  import opened ItemModel
  import opened Facade

  /** `JSON_ROW_ALLOWED_COLUMNS`. */
  const AllowedColumns: set<string> :=
    {ItemTitleColumn, ProductTitleColumn, ProductSpecsColumn, ItemSpecsColumn, ProductDescriptionColumn}

  const HttpOk := 200
  const HttpBadRequest := 400
  const HttpNotFound := 404

  /** `get_top_matches`' defaults for its keyword arguments. */
  const DefaultTopN := 10
  const DefaultMinProb: Float := Finite(0.7)

  /** A response as the handlers leave it: no body until one is written, status 200 until changed. */
  class Response {
    var body: Option<string>
    var status: int

    constructor ()
      ensures body == None && status == HttpOk
    {
      body := None;
      status := HttpOk;
    }
  }

  /** `_bad_request(resp, msg)`: the message as body, status 400. */
  method BadRequest(resp: Response, message: string)
    modifies resp
    ensures resp.body == Some(message) && resp.status == HttpBadRequest
  {
    resp.body := Some(message);
    resp.status := HttpBadRequest;
  }

  /**
   * A request: its declared content length, its body as read from the stream and decoded as
   * UTF-8 (an error text when reading or decoding fails), and its query parameters.
   */
  datatype Request = Request(contentLength: Option<int>, payload: Result<string>, params: map<string, string>)

  /** `req.content_length` is truthy: given and not zero. */
  predicate HasBody(req: Request)
  {
    req.contentLength.Some? && req.contentLength.value != 0
  }

  /** `json.loads` of the body, with `parse` the JSON reader; a failure carries the error's text. */
  function ParsedBody(req: Request, parse: string -> Result<PyValue>): (r: Result<PyValue>)
  {
    if req.payload.Err? then Err(req.payload.error) else parse(req.payload.value)
  }

  function ParseErrorMessage(error: string): (r: string)
  {
    "Can't parse request body as JSON, error: " + error
  }

  // ---------------------------------------------------------------------------------------
  // int(text)

  /**
   * The white space `int()` skips around a numeral: the ASCII space and `\t` to `\r`, and the
   * non-ASCII characters `str.isspace` accepts, which `int()` first turns into a space. The
   * separators U+001C to U+001F count for `str.isspace` but are ASCII, so `int()` keeps them.
   */
  predicate IsIntSpace(c: char)
  {
    c == ' ' || '\t' <= c <= '\r' || c == '\U{85}' || c == '\U{A0}' ||
    c == '\U{1680}' || '\U{2000}' <= c <= '\U{200A}' || c == '\U{2028}' || c == '\U{2029}' ||
    c == '\U{202F}' || c == '\U{205F}' || c == '\U{3000}'
  }

  function TrimStart(s: string): (r: string)
    decreases |s|
  {
    if s != [] && IsIntSpace(s[0]) then TrimStart(s[1..]) else s
  }

  function TrimEnd(s: string): (r: string)
    decreases |s|
  {
    if s != [] && IsIntSpace(s[|s| - 1]) then TrimEnd(s[..|s| - 1]) else s
  }

  predicate DigitsOrUnderscores(s: string)
  {
    forall i :: 0 <= i < |s| ==> IsDigit(s[i]) || s[i] == '_'
  }

  /** Decimal digits, with single underscores allowed between two digits. */
  predicate DigitGroups(s: string)
  {
    |s| >= 1 && IsDigit(s[0]) && IsDigit(s[|s| - 1]) && DigitsOrUnderscores(s) &&
    forall i :: 0 <= i < |s| - 1 && s[i] == '_' ==> s[i + 1] != '_'
  }

  /** The digits of a numeral with its underscores left out. */
  function DropUnderscores(s: string): (r: string)
    ensures DigitsOrUnderscores(s) ==> AllDigits(r)
    decreases |s|
  {
    if s == [] then []
    else
      var init := DropUnderscores(s[..|s| - 1]);
      if s[|s| - 1] == '_' then init else init + [s[|s| - 1]]
  }

  /**
   * `int(text)` for base ten: surrounding white space, an optional sign, then digit groups.
   * Anything else is a ValueError, here None.
   */
  function ParsePyInt(text: string): (r: Option<int>)
  {
    var t := TrimEnd(TrimStart(text));
    var signed := |t| >= 1 && (t[0] == '-' || t[0] == '+');
    var digits := if signed then t[1..] else t;
    if !DigitGroups(digits) then None
    else
      var magnitude: int := DigitsValue(DropUnderscores(digits));
      Some(if signed && t[0] == '-' then -magnitude else magnitude)
  }

  lemma {:induction false} DropUnderscoresOfDigits(s: string)
    requires AllDigits(s)
    ensures DropUnderscores(s) == s
    decreases |s|
  {
    if s != [] {
      DropUnderscoresOfDigits(s[..|s| - 1]);
    }
  }

  lemma {:induction false} TrimOfText(s: string)
    requires |s| >= 1 && !IsIntSpace(s[0]) && !IsIntSpace(s[|s| - 1])
    ensures TrimEnd(TrimStart(s)) == s
  {
  }

  /** `int(str(i)) == i`: reading back the text of an int gives the int. */
  lemma ParsePyIntOfText(i: int)
    ensures ParsePyInt(IntText(i)) == Some(i)
  {
    var s := IntText(i);
    IntTextShape(i);
    var digits := if i < 0 then s[1..] else s;
    assert AllDigits(digits) && |digits| >= 1;
    assert s[|s| - 1] == digits[|digits| - 1];
    TrimOfText(s);
    DropUnderscoresOfDigits(digits);
  }

  /** White space around the text does not change what it reads as. */
  lemma ParsePyIntIgnoresSpace(text: string)
    ensures ParsePyInt(" " + text + " ") == ParsePyInt(text)
  {
    var padded := " " + text + " ";
    assert TrimStart(padded) == TrimStart(text + " ") by {
      assert padded[1..] == text + " ";
    }
    TrimStartSpaceEnd(text);
  }

  /**
   * The information separators U+001C to U+001F are not skipped: a numeral with one in front
   * or behind is a ValueError, while a space in the same place is skipped.
   */
  lemma ParsePyIntKeepsSeparators(text: string)
    requires AllDigits(text) && text != []
    ensures ParsePyInt("\U{1C}" + text) == None
    ensures ParsePyInt(text + "\U{1F}") == None
    ensures ParsePyInt(" " + text) == Some(DigitsValue(text))
  {
    ParsePyIntUnskipped("\U{1C}" + text);
    ParsePyIntUnskipped(text + "\U{1F}");
    var padded := " " + text;
    assert padded[1..] == text;
    TrimOfText(text);
    DropUnderscoresOfDigits(text);
  }

  /** A text that starts or ends with a character that is neither white space nor a digit is no numeral. */
  lemma ParsePyIntUnskipped(s: string)
    requires |s| >= 2 && !IsIntSpace(s[0]) && !IsIntSpace(s[|s| - 1])
    requires s[0] != '-' && s[0] != '+'
    requires !IsDigit(s[0]) || !IsDigit(s[|s| - 1])
    ensures ParsePyInt(s) == None
  {
    TrimOfText(s);
  }

  /** A trailing space survives `TrimStart` and is then the first thing `TrimEnd` removes. */
  lemma {:induction false} TrimStartSpaceEnd(text: string)
    ensures TrimEnd(TrimStart(text + " ")) == TrimEnd(TrimStart(text))
    decreases |text|
  {
    if text != [] && IsIntSpace(text[0]) {
      assert (text + " ")[1..] == text[1..] + " ";
      TrimStartSpaceEnd(text[1..]);
    } else if text == [] {
      assert TrimStart(" ") == TrimStart([]);
    } else {
      assert TrimStart(text + " ") == TrimStart(text) + " ";
      assert (TrimStart(text) + " ")[..|TrimStart(text) + " "| - 1] == TrimStart(text);
    }
  }

  // ---------------------------------------------------------------------------------------
  // POST /match/{category}

  /** The `minprob` query value as the handler clamps it into [0, 1]; NaN compares false both ways and passes. */
  function ClampProb(f: Float): (r: Float)
    ensures f.NaN? <==> r.NaN?
    ensures !r.NaN? ==> r.Finite? && 0.0 <= r.x <= 1.0
    ensures f.Finite? && 0.0 <= f.x <= 1.0 ==> r == f
    ensures f.NegInf? || (f.Finite? && f.x < 0.0) ==> r == Finite(0.0)
    ensures f.PosInf? || (f.Finite? && f.x > 1.0) ==> r == Finite(1.0)
  {
    match f
    case NaN => NaN
    case NegInf => Finite(0.0)
    case PosInf => Finite(1.0)
    case Finite(x) => if x < 0.0 then Finite(0.0) else if x > 1.0 then Finite(1.0) else f
  }

  /** Clamping a clamped value changes nothing, and clamping keeps exactly NaN and the finite values in [0, 1]. */
  lemma ClampProbIdempotent(f: Float)
    ensures ClampProb(ClampProb(f)) == ClampProb(f)
    ensures ClampProb(f) == f <==> f.NaN? || (f.Finite? && 0.0 <= f.x <= 1.0)
  {
  }

  /** Every value of a dict is a string. */
  predicate StringValued(d: map<string, PyValue>)
  {
    forall k :: k in d ==> d[k].PyStr?
  }

  /** What a valid match request hands the back end: the item and the keyword arguments given. */
  datatype MatchArgs = MatchArgs(itemDict: map<string, PyValue>, topN: Option<int>, minProb: Option<Float>)

  /**
   * The checks of the match handler after the category is found, in their order; an error
   * carries the 400 message.
   */
  function CheckMatchRequest(req: Request, parse: string -> Result<PyValue>, parseFloat: string -> Option<Float>): (r: Result<MatchArgs>)
  {
    if !HasBody(req) then Err("Empty request body")
    else
      var doc := ParsedBody(req, parse);
      if doc.Err? then Err(ParseErrorMessage(doc.error))
      else if !doc.value.PyDict? then Err("A root JSON object is expected")
      else
        var d := doc.value.entries;
        if ItemTitleKey !in d then Err("Field 'Title' is mandatory")
        else if !d[ItemTitleKey].PyStr? then Err("Title must be a string")
        else if ItemSpecsKey in d && !d[ItemSpecsKey].PyDict? then Err("Object value of 'ItemSpecifics' is expected")
        else if ItemSpecsKey in d && !StringValued(d[ItemSpecsKey].entries) then Err("Only string key-values are allowed in ItemSpecifics")
        else if "n" in req.params && ParsePyInt(req.params["n"]).None? then Err("query param 'n' must be an integer")
        else if "minprob" in req.params && parseFloat(req.params["minprob"]).None? then Err("query param 'minprob' must be a float")
        else
          var topN := if "n" in req.params then Some(ParsePyInt(req.params["n"]).value) else None;
          var minProb := if "minprob" in req.params then Some(ClampProb(parseFloat(req.params["minprob"]).value)) else None;
          Ok(MatchArgs(d, topN, minProb))
  }

  /**
   * A request passes exactly when it has a body that reads as a JSON object with a string
   * Title, an ItemSpecifics (if any) that maps strings to strings, an `n` (if any) that reads
   * as an int and a `minprob` (if any) that reads as a float; what passes is that object, the
   * `n` read, and the `minprob` clamped into [0, 1] unless it is NaN.
   */
  lemma CheckMatchRequestMeaning(req: Request, parse: string -> Result<PyValue>, parseFloat: string -> Option<Float>)
    ensures var r := CheckMatchRequest(req, parse, parseFloat);
      r.Ok? <==>
        && HasBody(req) && ParsedBody(req, parse).Ok? && ParsedBody(req, parse).value.PyDict?
        && var d := ParsedBody(req, parse).value.entries;
        && ItemTitleKey in d && d[ItemTitleKey].PyStr?
        && (ItemSpecsKey in d ==> d[ItemSpecsKey].PyDict? && StringValued(d[ItemSpecsKey].entries))
        && ("n" in req.params ==> ParsePyInt(req.params["n"]).Some?)
        && ("minprob" in req.params ==> parseFloat(req.params["minprob"]).Some?)
    ensures var r := CheckMatchRequest(req, parse, parseFloat);
      r.Ok? ==>
        && PyDict(r.value.itemDict) == ParsedBody(req, parse).value
        && (r.value.topN.Some? <==> "n" in req.params)
        && (r.value.topN.Some? ==> ParsePyInt(req.params["n"]) == r.value.topN)
        && (r.value.minProb.Some? <==> "minprob" in req.params)
        && (r.value.minProb.Some? && !r.value.minProb.value.NaN? ==>
              r.value.minProb.value.Finite? && 0.0 <= r.value.minProb.value.x <= 1.0)
    ensures !HasBody(req) ==> CheckMatchRequest(req, parse, parseFloat) == Err("Empty request body")
  {
  }

  /** `all(isinstance(v, str) for v in d.values())`, by a scan of the entries. */
  method AllStrings(d: map<string, PyValue>) returns (ok: bool)
    ensures ok <==> StringValued(d)
  {
    var keys := KeysOf(d);
    var i := 0;
    while i < |keys|
      invariant 0 <= i <= |keys|
      invariant forall j :: 0 <= j < i ==> d[keys[j]].PyStr?
    {
      if !d[keys[i]].PyStr? {
        return false;
      }
      i := i + 1;
    }
    ok := true;
  }

  class ProductMatchingResource {
    /** `facade_dict`: the facade of each category. */
    const facades: map<string, ProductMatchingFacade>
    const parse: string -> Result<PyValue>
    const parseFloat: string -> Option<Float>
    const dumps: PyValue -> string

    constructor (facades: map<string, ProductMatchingFacade>, parse: string -> Result<PyValue>,
                 parseFloat: string -> Option<Float>, dumps: PyValue -> string)
      ensures this.facades == facades && this.parse == parse && this.parseFloat == parseFloat && this.dumps == dumps
    {
      this.facades := facades;
      this.parse := parse;
      this.parseFloat := parseFloat;
      this.dumps := dumps;
    }

    /**
     * `on_post(req, resp, category)`: an unknown category is a 404 before the body is read; a
     * request that fails a check is a 400 with the check's message; otherwise the category's
     * facade answers, with the defaults for the arguments not given, and its answer is the
     * body. An exception from the facade escapes the handler.
     */
    method OnPost(req: Request, resp: Response, category: string) returns (r: Result<()>)
      modifies resp, if category in facades then {facades[category]} else {}
      ensures category !in facades ==>
        r == Ok(()) && resp.body == Some("Unknown category: " + category) && resp.status == HttpNotFound
      ensures category in facades && CheckMatchRequest(req, parse, parseFloat).Err? ==>
        && r == Ok(()) && resp.body == Some(CheckMatchRequest(req, parse, parseFloat).error)
        && resp.status == HttpBadRequest && unchanged(facades[category])
      ensures category in facades && CheckMatchRequest(req, parse, parseFloat).Ok? ==>
        var args := CheckMatchRequest(req, parse, parseFloat).value;
        var facade := facades[category];
        var topN := if args.topN.Some? then args.topN.value else DefaultTopN;
        && resp.status == old(resp.status)
        && (topN < 1 ==> r == Ok(()) && resp.body == Some(dumps(PyList([]))) && unchanged(facade))
        && (topN >= 1 && ItemSpecsKey !in args.itemDict ==> r == Err("ValueError") && unchanged(resp) && unchanged(facade))
        && (topN >= 1 && ItemSpecsKey in args.itemDict ==>
              && |facade.transformed| == |old(facade.transformed)| + 1
              && (r == Err("ZeroDivisionError") <==> facade.products == [])
              && (r.Ok? ==> r == Ok(()) && resp.body == Some(dumps(facade.transform(facade.transformed[|facade.transformed| - 1])))))
    {
      if category !in facades {
        resp.body := Some("Unknown category: " + category);
        resp.status := HttpNotFound;
        return Ok(());
      }
      var facade := facades[category];
      var args := ValidateMatch(req, resp);
      if args.None? {
        return Ok(());
      }
      assert ItemTitleKey in args.value.itemDict;
      var topN := if args.value.topN.Some? then args.value.topN.value else DefaultTopN;
      var minProb := if args.value.minProb.Some? then args.value.minProb.value else DefaultMinProb;
      var answer := facade.GetTopMatches(args.value.itemDict, minProb, topN);
      if answer.Err? {
        return Err(answer.error);
      }
      resp.body := Some(dumps(answer.value));
      r := Ok(());
    }

    /** The checks, in order, answering 400 with the first that fails; the arguments otherwise. */
    method ValidateMatch(req: Request, resp: Response) returns (args: Option<MatchArgs>)
      modifies resp
      ensures var check := CheckMatchRequest(req, parse, parseFloat);
        && (check.Ok? ==> args == Some(check.value) && unchanged(resp))
        && (check.Err? ==> args == None && resp.body == Some(check.error) && resp.status == HttpBadRequest)
    {
      if !HasBody(req) {
        BadRequest(resp, "Empty request body");
        return None;
      }
      var doc := ParsedBody(req, parse);
      if doc.Err? {
        BadRequest(resp, ParseErrorMessage(doc.error));
        return None;
      }
      if !doc.value.PyDict? {
        BadRequest(resp, "A root JSON object is expected");
        return None;
      }
      var d := doc.value.entries;
      if ItemTitleKey !in d {
        BadRequest(resp, "Field 'Title' is mandatory");
        return None;
      }
      if !d[ItemTitleKey].PyStr? {
        BadRequest(resp, "Title must be a string");
        return None;
      }
      if ItemSpecsKey in d {
        if !d[ItemSpecsKey].PyDict? {
          BadRequest(resp, "Object value of 'ItemSpecifics' is expected");
          return None;
        }
        var ok := AllStrings(d[ItemSpecsKey].entries);
        if !ok {
          BadRequest(resp, "Only string key-values are allowed in ItemSpecifics");
          return None;
        }
      }
      var topN: Option<int> := None;
      if "n" in req.params {
        var n := ParsePyInt(req.params["n"]);
        if n.None? {
          BadRequest(resp, "query param 'n' must be an integer");
          return None;
        }
        topN := n;
      }
      var minProb: Option<Float> := None;
      if "minprob" in req.params {
        var p := parseFloat(req.params["minprob"]);
        if p.None? {
          BadRequest(resp, "query param 'minprob' must be a float");
          return None;
        }
        minProb := Some(ClampProb(p.value));
      }
      args := Some(MatchArgs(d, topN, minProb));
    }
  }

  // ---------------------------------------------------------------------------------------
  // The pair classifier

  /** A cell of a classifier row: a known column holding a string or null. */
  predicate ValidCell(column: string, value: PyValue)
  {
    column in AllowedColumns && (value.PyNone? || value.PyStr?)
  }

  predicate ValidRow(row: map<string, PyValue>)
  {
    forall column :: column in row ==> ValidCell(column, row[column])
  }

  /** The 400 message for a cell that fails the check. */
  function CellMessage(column: string, value: PyValue, repr: PyValue -> string): (r: string)
  {
    if column !in AllowedColumns then "Unknown field (column name) : " + column
    else "There are non-string and non-null field (column '" + column + "') value : " + Str(value, repr)
  }

  /** The check of one row: nothing, or the message for one of its failing cells. */
  method CheckRow(row: map<string, PyValue>, repr: PyValue -> string) returns (problem: Option<string>)
    ensures problem.None? <==> ValidRow(row)
    ensures problem.Some? ==>
      exists column :: column in row && !ValidCell(column, row[column]) && problem.value == CellMessage(column, row[column], repr)
  {
    var columns := KeysOf(row);
    var i := 0;
    while i < |columns|
      invariant 0 <= i <= |columns|
      invariant forall j :: 0 <= j < i ==> ValidCell(columns[j], row[columns[j]])
    {
      var column := columns[i];
      if !ValidCell(column, row[column]) {
        return Some(CellMessage(column, row[column], repr));
      }
      i := i + 1;
    }
    problem := None;
  }

  /** The rows' dicts, in order. */
  function RowMaps(rows: seq<PyValue>): (r: seq<map<string, PyValue>>)
    requires forall i :: 0 <= i < |rows| ==> rows[i].PyDict?
    ensures |r| == |rows| && forall i :: 0 <= i < |rows| ==> PyDict(r[i]) == rows[i]
  {
    seq(|rows|, i requires 0 <= i < |rows| => rows[i].entries)
  }

  /** The first `n` rows are dicts that pass the check. */
  predicate RowsValid(rows: seq<PyValue>, n: int)
    requires 0 <= n <= |rows|
  {
    forall j :: 0 <= j < n ==> rows[j].PyDict? && ValidRow(rows[j].entries)
  }

  class ClassifierAnswerResource {
    /** The facade's `classify_pairs_df` on the data frame of the rows: one answer per row. */
    const classify: seq<map<string, PyValue>> -> seq<PyValue>
    const parse: string -> Result<PyValue>
    const dumps: PyValue -> string
    const repr: PyValue -> string
    /** The row batches handed to the classifier so far. */
    var classified: seq<seq<map<string, PyValue>>>

    constructor (classify: seq<map<string, PyValue>> -> seq<PyValue>, parse: string -> Result<PyValue>,
                 dumps: PyValue -> string, repr: PyValue -> string)
      ensures this.classify == classify && this.parse == parse && this.dumps == dumps && this.repr == repr
      ensures classified == []
    {
      this.classify := classify;
      this.parse := parse;
      this.dumps := dumps;
      this.repr := repr;
      classified := [];
    }

    /**
     * `on_post(req, resp)`: the body must be a JSON array; an empty one is answered with an
     * empty array without classifying. The rows are checked in order: the first row that is
     * not a dict raises AttributeError (`items` is missing); the first dict with an unknown
     * column or a value that is neither a string nor null is a 400 naming one such cell.
     * Otherwise the rows are classified in one batch and the answers are the body.
     */
    method OnPost(req: Request, resp: Response) returns (r: Result<()>)
      modifies this, resp
      ensures !HasBody(req) ==>
        r == Ok(()) && resp.body == Some("Empty request body") && resp.status == HttpBadRequest && classified == old(classified)
      ensures HasBody(req) && ParsedBody(req, parse).Err? ==>
        && r == Ok(()) && resp.body == Some(ParseErrorMessage(ParsedBody(req, parse).error))
        && resp.status == HttpBadRequest && classified == old(classified)
      ensures HasBody(req) && ParsedBody(req, parse).Ok? && !ParsedBody(req, parse).value.PyList? ==>
        && r == Ok(()) && resp.body == Some("A root JSON array is expected")
        && resp.status == HttpBadRequest && classified == old(classified)
      ensures HasBody(req) && ParsedBody(req, parse) == Ok(PyList([])) ==>
        r == Ok(()) && resp.body == Some(dumps(PyList([]))) && resp.status == old(resp.status) && classified == old(classified)
      ensures HasBody(req) && ParsedBody(req, parse).Ok? && ParsedBody(req, parse).value.PyList? ==>
        var rows := ParsedBody(req, parse).value.items;
        && (forall i :: 0 <= i < |rows| && RowsValid(rows, i) && !rows[i].PyDict? ==>
              r == Err("AttributeError") && classified == old(classified))
        && (forall i :: 0 <= i < |rows| && RowsValid(rows, i) && rows[i].PyDict? && !ValidRow(rows[i].entries) ==>
              && r == Ok(()) && resp.status == HttpBadRequest && classified == old(classified)
              && exists column :: column in rows[i].entries && !ValidCell(column, rows[i].entries[column]) &&
                   resp.body == Some(CellMessage(column, rows[i].entries[column], repr)))
        && (rows != [] && RowsValid(rows, |rows|) ==>
              && r == Ok(()) && classified == old(classified) + [RowMaps(rows)]
              && resp.body == Some(dumps(PyList(classify(RowMaps(rows))))) && resp.status == old(resp.status))
    {
      if !HasBody(req) {
        BadRequest(resp, "Empty request body");
        return Ok(());
      }
      var doc := ParsedBody(req, parse);
      if doc.Err? {
        BadRequest(resp, ParseErrorMessage(doc.error));
        return Ok(());
      }
      if !doc.value.PyList? {
        BadRequest(resp, "A root JSON array is expected");
        return Ok(());
      }
      var rows := doc.value.items;
      if rows == [] {
        resp.body := Some(dumps(PyList([])));
        return Ok(());
      }
      var i := 0;
      while i < |rows|
        invariant 0 <= i <= |rows|
        invariant RowsValid(rows, i)
        invariant unchanged(resp) && unchanged(this)
      {
        if !rows[i].PyDict? {
          return Err("AttributeError");
        }
        var problem := CheckRow(rows[i].entries, repr);
        if problem.Some? {
          BadRequest(resp, problem.value);
          return Ok(());
        }
        i := i + 1;
      }
      var frame := RowMaps(rows);
      classified := classified + [frame];
      resp.body := Some(dumps(PyList(classify(frame))));
      r := Ok(());
    }
  }

  // ---------------------------------------------------------------------------------------
  // GET /categories

  /** `cat['id']` with the category: a dict without an id is a KeyError, anything else not indexable by text, or an id that cannot be a key, a TypeError. */
  function IdPair(category: PyValue): (r: Result<(PyValue, PyValue)>)
    ensures r.Ok? <==> category.PyDict? && "id" in category.entries && Hashable(category.entries["id"])
    ensures r.Ok? ==> r.value == (category.entries["id"], category)
  {
    if !category.PyDict? then Err("TypeError")
    else if "id" !in category.entries then Err("KeyError")
    else if !Hashable(category.entries["id"]) then Err("TypeError")
    else Ok((category.entries["id"], category))
  }

  /** The (id, category) pairs of the list in order; the first category that fails decides the error. */
  function IdPairs(categories: seq<PyValue>): (r: Result<seq<(PyValue, PyValue)>>)
    ensures r.Ok? <==> forall i :: 0 <= i < |categories| ==> IdPair(categories[i]).Ok?
    ensures r.Ok? ==> |r.value| == |categories| && forall i :: 0 <= i < |categories| ==> r.value[i] == IdPair(categories[i]).value
    decreases |categories|
  {
    if categories == [] then Ok([])
    else
      var init := IdPairs(categories[..|categories| - 1]);
      var last := IdPair(categories[|categories| - 1]);
      if init.Err? then init
      else if last.Err? then Err(last.error)
      else Ok(init.value + [last.value])
  }

  /** A category with a truthy label. */
  predicate Labelled(category: PyValue)
  {
    category.PyDict? && Truthy(Get(category.entries, "label"))
  }

  class CategoryResource {
    const categoryList: seq<PyValue>
    /** `category_dict`: each id bound to the last category carrying it. */
    const categoryDict: map<PyValue, PyValue>

    constructor (categoryList: seq<PyValue>, categoryDict: map<PyValue, PyValue>)
      ensures this.categoryList == categoryList && this.categoryDict == categoryDict
    {
      this.categoryList := categoryList;
      this.categoryDict := categoryDict;
    }

    /** `on_get`: the category list as the body. */
    method OnGet(resp: Response, dumps: PyValue -> string)
      modifies resp
      ensures resp.body == Some(dumps(PyList(categoryList))) && resp.status == old(resp.status)
    {
      resp.body := Some(dumps(PyList(categoryList)));
    }
  }

  /**
   * `CategoryResource(category_list)`: the index by id is built first, then every category
   * must have a truthy label, or the constructor raises ValueError.
   */
  method NewCategoryResource(categories: seq<PyValue>) returns (r: Result<CategoryResource>)
    ensures IdPairs(categories).Err? ==> r == Err(IdPairs(categories).error)
    ensures IdPairs(categories).Ok? ==>
      && (r.Ok? <==> forall i :: 0 <= i < |categories| ==> Labelled(categories[i]))
      && (r.Err? ==> r.error == "ValueError")
      && (r.Ok? ==> fresh(r.value) && r.value.categoryList == categories && r.value.categoryDict == DictOf(IdPairs(categories).value))
  {
    var pairs := IdPairs(categories);
    if pairs.Err? {
      return Err(pairs.error);
    }
    var i := 0;
    while i < |categories|
      invariant 0 <= i <= |categories|
      invariant forall j :: 0 <= j < i ==> Labelled(categories[j])
    {
      if !Truthy(Get(categories[i].entries, "label")) {
        return Err("ValueError");
      }
      i := i + 1;
    }
    var resource := new CategoryResource(categories, DictOf(pairs.value));
    r := Ok(resource);
  }

  /** The index holds every category's id, each bound to the last category with that id. */
  lemma CategoryIndex(categories: seq<PyValue>, k: PyValue, i: int)
    requires IdPairs(categories).Ok?
    ensures k in DictOf(IdPairs(categories).value) <==>
      exists j :: 0 <= j < |categories| && categories[j].entries["id"] == k
    ensures 0 <= i < |categories| && (forall j :: i < j < |categories| ==> categories[j].entries["id"] != categories[i].entries["id"]) ==>
      categories[i].entries["id"] in DictOf(IdPairs(categories).value) &&
      DictOf(IdPairs(categories).value)[categories[i].entries["id"]] == categories[i]
  {
    var pairs := IdPairs(categories).value;
    assert forall j :: 0 <= j < |categories| ==> pairs[j].0 == categories[j].entries["id"] && pairs[j].1 == categories[j];
    DictOfKeys(pairs, k);
    if 0 <= i < |categories| && (forall j :: i < j < |categories| ==> categories[j].entries["id"] != categories[i].entries["id"]) {
      DictOfLast(pairs, i);
    }
  }
}
