/** libs/ml/fraud/vectorizer.py: the fixed feature layout of the fraud model, numeric
    columns first, then one one-hot block per categorical column. */
module FraudVectorizer {
  import opened Wrappers
  import opened Seqs
  import opened DecisionTypes

  /** `VectorizerSpec`. */
  datatype VectorizerSpec = VectorizerSpec(
    numericCols: seq<string>,
    categoricalCols: seq<string>,
    onehotCategories: map<string, seq<string>>)

  /** `DEFAULT_SPEC`. */
  const DefaultSpec: VectorizerSpec := VectorizerSpec(
    ["txn_amount", "txns_1h", "txns_24h", "avg_txn_amount_30d", "account_age_days",
     "device_change_7d", "failed_logins_24h"],
    ["txn_currency", "txn_country"],
    map["txn_currency" := ["GBP", "EUR", "USD"], "txn_country" := ["GB", "IE", "FR", "DE", "US"]])

  /** A data frame: its column names and its rows (a row lacking a column holds null there). */
  datatype Frame = Frame(columns: set<string>, rows: seq<map<string, Json>>)

  datatype VectorizeError =
    | MissingColumns(names: seq<string>)  // ValueError from `_ensure_columns`
    | NotNumeric                          // `astype("float32")` rejects a value
    | MissingCategories(col: string)      // KeyError from `spec.onehot_categories[c]`
    | NotInteger                          // `astype("int64")` rejects a label

  /** `[c for c in cols if c not in df.columns]`. */
  function Missing(frame: Frame, cols: seq<string>): (m: seq<string>)
    ensures forall c :: c in m <==> c in cols && c !in frame.columns
    ensures |m| <= |cols|
  {
    if cols == [] then []
    else
      assert forall c :: c in cols <==> c == cols[0] || c in cols[1..];
      (if cols[0] in frame.columns then [] else [cols[0]]) + Missing(frame, cols[1..])
  }

  /** `_ensure_columns`: an error naming every missing column, in the order given. */
  function EnsureColumns(frame: Frame, cols: seq<string>): (r: Option<VectorizeError>)
    ensures r.None? <==> forall c :: c in cols ==> c in frame.columns
    ensures r.Some? ==> r.value.MissingColumns? && r.value.names != [] &&
                        forall c :: c in r.value.names <==> c in cols && c !in frame.columns
  {
    var m := Missing(frame, cols);
    if m != [] then
      assert m[0] in m;
      Some(MissingColumns(m))
    else None
  }

  /** A cell as float: numbers and booleans convert, anything else is rejected. The same
      conversion is `isinstance(v, (int, float))` followed by `float(v)` on a JSON value. */
  function NumericValue(j: Json): (r: Option<real>)
    ensures r.Some? <==> j.JInt? || j.JNum? || j.JBool?
    ensures j.JInt? ==> r == Some(j.intValue as real)
    ensures j.JNum? ==> r == Some(j.numValue)
    ensures j.JBool? ==> r == Some(if j.boolValue then 1.0 else 0.0)
  {
    match j
    case JInt(i) => Some(i as real)
    case JNum(x) => Some(x)
    case JBool(b) => Some(if b then 1.0 else 0.0)
    case _ => None
  }

  /** The numeric part of one row, in column order. */
  function NumericRow(row: map<string, Json>, cols: seq<string>): (r: Option<seq<real>>)
    ensures r.Some? ==> |r.value| == |cols| &&
                        forall i :: 0 <= i < |cols| ==> NumericValue(Get(row, cols[i])) == Some(r.value[i])
    ensures r.None? ==> exists i :: 0 <= i < |cols| && NumericValue(Get(row, cols[i])).None?
  {
    if cols == [] then Some([])
    else
      var n := |cols| - 1;
      var init := NumericRow(row, cols[..n]);
      var v := NumericValue(Get(row, cols[n]));
      if init.None? then
        var i :| 0 <= i < n && NumericValue(Get(row, cols[..n][i])).None?;
        assert cols[..n][i] == cols[i];
        None
      else if v.None? then None
      else
        assert forall i :: 0 <= i < n ==> cols[..n][i] == cols[i];
        Some(init.value + [v.value])
  }

  /** `df.loc[:, cols].astype("float32")`: every row's numeric part, or NotNumeric. */
  function NumericMatrix(rows: seq<map<string, Json>>, cols: seq<string>): (r: Option<seq<seq<real>>>)
    ensures r.Some? <==> forall k :: 0 <= k < |rows| ==> NumericRow(rows[k], cols).Some?
    ensures r.Some? ==> |r.value| == |rows| &&
                        forall k :: 0 <= k < |rows| ==> r.value[k] == NumericRow(rows[k], cols).value
  {
    if forall k :: 0 <= k < |rows| ==> NumericRow(rows[k], cols).Some? then
      Some(seq(|rows|, k requires 0 <= k < |rows| => NumericRow(rows[k], cols).value))
    else None
  }

  /** `{cat: i for i, cat in enumerate(categories)}`: a later duplicate overwrites an earlier one. */
  function IndexMap(cats: seq<string>): (m: map<string, nat>)
    ensures m.Keys == Elems(cats)
    ensures forall c :: c in m ==> m[c] < |cats| && cats[m[c]] == c &&
                                   forall j :: m[c] < j < |cats| ==> cats[j] != c
  {
    if cats == [] then map[]
    else
      var n := |cats| - 1;
      var init := IndexMap(cats[..n]);
      assert Elems(cats) == Elems(cats[..n]) + {cats[n]};
      IndexMapStep(cats, init);
      init[cats[n] := n]
  }

  lemma IndexMapStep(cats: seq<string>, init: map<string, nat>)
    requires cats != []
    requires var n := |cats| - 1;
             forall c :: c in init ==> init[c] < n && cats[..n][init[c]] == c &&
                                       forall j :: init[c] < j < n ==> cats[..n][j] != c
    ensures var n := |cats| - 1;
            var m := init[cats[n] := n];
            forall c :: c in m ==> m[c] < |cats| && cats[m[c]] == c &&
                                   forall j :: m[c] < j < |cats| ==> cats[j] != c
  {
    var n := |cats| - 1;
    var m := init[cats[n] := n];
    forall c | c in m
      ensures m[c] < |cats| && cats[m[c]] == c && forall j :: m[c] < j < |cats| ==> cats[j] != c
    {
      if c != cats[n] {
        var i := init[c];
        assert cats[..n][i] == cats[i];
        forall j | i < j < |cats| ensures cats[j] != c {
          if j < n {
            assert cats[..n][j] == cats[j];
          }
        }
      }
    }
  }

  /** The one-hot cell for a value and category position: 1 exactly where the value's
      (last) index in the category list is. Only string values can match a category. */
  function OneHotCell(v: Json, cats: seq<string>, j: nat): (x: real)
    ensures x == 1.0 || x == 0.0
    ensures x == 1.0 <==> v.JStr? && j < |cats| && cats[j] == v.str &&
                          forall i :: j < i < |cats| ==> cats[i] != v.str
  {
    IndexMapLast(cats, j, if v.JStr? then v.str else "");
    if v.JStr? && v.str in IndexMap(cats) && IndexMap(cats)[v.str] == j then 1.0 else 0.0
  }

  /** The last position of a value is the one the index map records. */
  lemma IndexMapLast(cats: seq<string>, j: nat, c: string)
    ensures j < |cats| && cats[j] == c && (forall i :: j < i < |cats| ==> cats[i] != c) ==>
              c in IndexMap(cats) && IndexMap(cats)[c] == j
  {
    if j < |cats| && cats[j] == c && (forall i :: j < i < |cats| ==> cats[i] != c) {
      assert c in Elems(cats) by { assert cats[j] in Elems(cats); }
    }
  }

  function OneHotRow(v: Json, cats: seq<string>): (r: seq<real>)
    ensures |r| == |cats|
  {
    seq(|cats|, j requires 0 <= j < |cats| => OneHotCell(v, cats, j))
  }

  /** A listed value gets exactly one 1.0, at its position in the category list (the last,
      if the list repeats it); any other value gets all zeros. */
  lemma OneHotRowShape(v: Json, cats: seq<string>)
    ensures var r := OneHotRow(v, cats);
            forall j :: 0 <= j < |r| ==> r[j] == 0.0 || r[j] == 1.0
    ensures v.JStr? && v.str in cats ==>
              exists j :: 0 <= j < |cats| && cats[j] == v.str && OneHotRow(v, cats)[j] == 1.0 &&
                          forall j' :: 0 <= j' < |cats| && j' != j ==> OneHotRow(v, cats)[j'] == 0.0
    ensures !(v.JStr? && v.str in cats) ==> forall j :: 0 <= j < |cats| ==> OneHotRow(v, cats)[j] == 0.0
  {
    if v.JStr? && v.str in cats {
      assert v.str in Elems(cats);
      var j := IndexMap(cats)[v.str];
      assert OneHotRow(v, cats)[j] == 1.0;
    } else if v.JStr? {
      assert v.str !in Elems(cats);
    }
  }

  /** `_one_hot`: a zero matrix with a 1.0 written at each listed value's category index. */
  method OneHot(values: seq<Json>, categories: seq<string>) returns (out: array2<real>)
    ensures fresh(out)
    ensures out.Length0 == |values| && out.Length1 == |categories|
    ensures forall r, j :: 0 <= r < |values| && 0 <= j < |categories| ==>
              out[r, j] == OneHotCell(values[r], categories, j)
  {
    out := new real[|values|, |categories|]((_, _) => 0.0);
    var idx := IndexMap(categories);
    var rowI := 0;
    while rowI < |values|
      invariant 0 <= rowI <= |values|
      invariant forall r, j :: 0 <= r < rowI && 0 <= j < |categories| ==>
                  out[r, j] == OneHotCell(values[r], categories, j)
      invariant forall r, j :: rowI <= r < |values| && 0 <= j < |categories| ==> out[r, j] == 0.0
    {
      var v := values[rowI];
      if v.JStr? && v.str in idx {
        out[rowI, idx[v.str]] := 1.0;
      }
      assert forall j :: 0 <= j < |categories| ==> out[rowI, j] == OneHotCell(v, categories, j);
      rowI := rowI + 1;
    }
  }

  /** The rows of a matrix, as sequences. */
  function MatrixRows(a: array2<real>): (rows: seq<seq<real>>)
    reads a
    ensures |rows| == a.Length0
    ensures forall r :: 0 <= r < |rows| ==>
              |rows[r]| == a.Length1 && forall j :: 0 <= j < a.Length1 ==> rows[r][j] == a[r, j]
  {
    seq(a.Length0, r requires 0 <= r < a.Length0 reads a =>
      seq(a.Length1, j requires 0 <= j < a.Length1 reads a => a[r, j]))
  }

  /** `df[col]` as a list of cells. */
  function ColumnValues(frame: Frame, col: string): (vs: seq<Json>)
    ensures |vs| == |frame.rows|
  {
    seq(|frame.rows|, k requires 0 <= k < |frame.rows| => Get(frame.rows[k], col))
  }

  /** The first categorical column without a category list, if any. */
  function FirstUnlisted(cols: seq<string>, cats: map<string, seq<string>>): (r: Option<string>)
    ensures r.None? <==> forall c :: c in cols ==> c in cats
    ensures r.Some? ==> r.value in cols && r.value !in cats
  {
    if cols == [] then None
    else if cols[0] !in cats then Some(cols[0])
    else
      assert forall c :: c in cols <==> c == cols[0] || c in cols[1..];
      FirstUnlisted(cols[1..], cats)
  }

  /** The one-hot blocks of one row, one per categorical column. */
  function OneHotBlocks(row: map<string, Json>, spec: VectorizerSpec): (bs: seq<seq<real>>)
    requires forall c :: c in spec.categoricalCols ==> c in spec.onehotCategories
    ensures |bs| == |spec.categoricalCols|
  {
    seq(|spec.categoricalCols|, i requires 0 <= i < |spec.categoricalCols| =>
      OneHotRow(Get(row, spec.categoricalCols[i]), spec.onehotCategories[spec.categoricalCols[i]]))
  }

  /** The category lists in categorical-column order. */
  function CategoryLists(spec: VectorizerSpec): (ls: seq<seq<string>>)
    requires forall c :: c in spec.categoricalCols ==> c in spec.onehotCategories
    ensures |ls| == |spec.categoricalCols|
  {
    seq(|spec.categoricalCols|, i requires 0 <= i < |spec.categoricalCols| =>
      spec.onehotCategories[spec.categoricalCols[i]])
  }

  /** The vector of one row: its numeric part, then its one-hot blocks. */
  function VectorRow(num: seq<real>, row: map<string, Json>, spec: VectorizerSpec): seq<real>
    requires forall c :: c in spec.categoricalCols ==> c in spec.onehotCategories
  {
    num + Flatten(OneHotBlocks(row, spec))
  }

  /** What `vectorize_dataframe` returns: the missing-column error first, then the numeric
      conversion error, then a KeyError for a categorical column without categories. */
  function Vectorize(frame: Frame, spec: VectorizerSpec): (r: Result<seq<seq<real>>, VectorizeError>)
    ensures r.Ok? <==> (forall c :: c in spec.numericCols + spec.categoricalCols ==> c in frame.columns) &&
                       NumericMatrix(frame.rows, spec.numericCols).Some? &&
                       (forall c :: c in spec.categoricalCols ==> c in spec.onehotCategories)
    ensures r.Ok? ==> |r.value| == |frame.rows|
    ensures (exists c :: c in spec.numericCols + spec.categoricalCols && c !in frame.columns) ==>
              r.Err? && r.error.MissingColumns?
    ensures r.Err? && r.error.MissingCategories? ==>
              NumericMatrix(frame.rows, spec.numericCols).Some? &&
              r.error.col in spec.categoricalCols && r.error.col !in spec.onehotCategories
  {
    var missing := EnsureColumns(frame, spec.numericCols + spec.categoricalCols);
    if missing.Some? then Err(missing.value)
    else
      var num := NumericMatrix(frame.rows, spec.numericCols);
      if num.None? then Err(NotNumeric)
      else
        var unlisted := FirstUnlisted(spec.categoricalCols, spec.onehotCategories);
        if unlisted.Some? then Err(MissingCategories(unlisted.value))
        else Ok(seq(|frame.rows|, k requires 0 <= k < |frame.rows| =>
                  VectorRow(num.value[k], frame.rows[k], spec)))
  }

  /** Column blocks joined side by side: `np.concatenate([num] + cat_blocks, axis=1)`. */
  function ConcatColumns(num: seq<seq<real>>, blocks: seq<seq<seq<real>>>): (x: seq<seq<real>>)
    requires forall b :: 0 <= b < |blocks| ==> |blocks[b]| == |num|
    ensures |x| == |num|
  {
    seq(|num|, k requires 0 <= k < |num| =>
      num[k] + Flatten(seq(|blocks|, b requires 0 <= b < |blocks| => blocks[b][k])))
  }

  /** `vectorize_dataframe`. */
  method VectorizeDataframe(frame: Frame, spec: VectorizerSpec) returns (res: Result<seq<seq<real>>, VectorizeError>)
    ensures res == Vectorize(frame, spec)
  {
    var missing := EnsureColumns(frame, spec.numericCols + spec.categoricalCols);
    if missing.Some? {
      return Err(missing.value);
    }
    var num := NumericMatrix(frame.rows, spec.numericCols);
    if num.None? {
      return Err(NotNumeric);
    }
    var catBlocks: seq<seq<seq<real>>> := [];
    var i := 0;
    while i < |spec.categoricalCols|
      invariant 0 <= i <= |spec.categoricalCols|
      invariant forall c :: c in spec.categoricalCols[..i] ==> c in spec.onehotCategories
      invariant |catBlocks| == i
      invariant forall b :: 0 <= b < i ==>
                  |catBlocks[b]| == |frame.rows| &&
                  forall k :: 0 <= k < |frame.rows| ==>
                    catBlocks[b][k] == OneHotRow(Get(frame.rows[k], spec.categoricalCols[b]),
                                                 spec.onehotCategories[spec.categoricalCols[b]])
    {
      var c := spec.categoricalCols[i];
      if c !in spec.onehotCategories {
        assert FirstUnlisted(spec.categoricalCols, spec.onehotCategories).Some?;
        assert FirstUnlisted(spec.categoricalCols, spec.onehotCategories) == Some(c) by {
          FirstUnlistedIsFirst(spec.categoricalCols, spec.onehotCategories, i);
        }
        return Err(MissingCategories(c));
      }
      var rows := OneHotColumn(frame, c, spec.onehotCategories[c]);
      assert spec.categoricalCols[..i + 1] == spec.categoricalCols[..i] + [c];
      catBlocks := catBlocks + [rows];
      i := i + 1;
    }
    assert spec.categoricalCols[..i] == spec.categoricalCols;
    var x := ConcatColumns(num.value, catBlocks);
    ConcatBlocks(frame, spec, num.value, catBlocks);
    res := Ok(x);
  }

  /** One categorical column's one-hot block, row by row. */
  method OneHotColumn(frame: Frame, c: string, cats: seq<string>) returns (rows: seq<seq<real>>)
    ensures |rows| == |frame.rows|
    ensures forall k :: 0 <= k < |frame.rows| ==> rows[k] == OneHotRow(Get(frame.rows[k], c), cats)
  {
    var block := OneHot(ColumnValues(frame, c), cats);
    rows := MatrixRows(block);
    assert forall k :: 0 <= k < |frame.rows| ==> rows[k] == OneHotRow(Get(frame.rows[k], c), cats);
  }

  /** Joining the numeric part with the per-column blocks gives each row's vector. */
  lemma ConcatBlocks(frame: Frame, spec: VectorizerSpec, num: seq<seq<real>>, catBlocks: seq<seq<seq<real>>>)
    requires forall c :: c in spec.categoricalCols ==> c in spec.onehotCategories
    requires |num| == |frame.rows| && |catBlocks| == |spec.categoricalCols|
    requires forall b :: 0 <= b < |catBlocks| ==>
               |catBlocks[b]| == |frame.rows| &&
               forall k :: 0 <= k < |frame.rows| ==>
                 catBlocks[b][k] == OneHotRow(Get(frame.rows[k], spec.categoricalCols[b]),
                                              spec.onehotCategories[spec.categoricalCols[b]])
    ensures ConcatColumns(num, catBlocks) ==
              seq(|frame.rows|, k requires 0 <= k < |frame.rows| => VectorRow(num[k], frame.rows[k], spec))
  {
    var x := ConcatColumns(num, catBlocks);
    forall k | 0 <= k < |frame.rows|
      ensures x[k] == VectorRow(num[k], frame.rows[k], spec)
    {
      assert seq(|catBlocks|, b requires 0 <= b < |catBlocks| => catBlocks[b][k]) ==
             OneHotBlocks(frame.rows[k], spec);
    }
  }

  lemma {:induction false} FirstUnlistedIsFirst(cols: seq<string>, cats: map<string, seq<string>>, i: nat)
    requires i < |cols| && cols[i] !in cats
    requires forall c :: c in cols[..i] ==> c in cats
    ensures FirstUnlisted(cols, cats) == Some(cols[i])
  {
    if i > 0 {
      assert cols[0] == cols[..i][0];
      assert cols[0] in cats;
      assert cols[1..][..i - 1] == cols[..i][1..];
      assert forall c :: c in cols[..i][1..] ==> c in cols[..i];
      assert cols[1..][i - 1] == cols[i];
      FirstUnlistedIsFirst(cols[1..], cats, i - 1);
    }
  }

  /** Every vector has |numeric_cols| plus the summed category-list lengths entries: the
      numeric values in column order, then block b at that offset plus the lengths of the
      blocks before it, holding the one-hot row of categorical column b. */
  lemma VectorLayout(frame: Frame, spec: VectorizerSpec)
    requires Vectorize(frame, spec).Ok?
    ensures forall c :: c in spec.categoricalCols ==> c in spec.onehotCategories
    ensures var x := Vectorize(frame, spec).value;
            |x| == |frame.rows| &&
            forall k :: 0 <= k < |x| ==>
              |x[k]| == |spec.numericCols| + SumLengths(CategoryLists(spec)) &&
              forall i :: 0 <= i < |spec.numericCols| ==>
                NumericValue(Get(frame.rows[k], spec.numericCols[i])) == Some(x[k][i])
  {
    var x := Vectorize(frame, spec).value;
    var num := NumericMatrix(frame.rows, spec.numericCols).value;
    forall k | 0 <= k < |x|
      ensures |x[k]| == |spec.numericCols| + SumLengths(CategoryLists(spec))
    {
      var bs := OneHotBlocks(frame.rows[k], spec);
      FlattenLength(bs);
      SumLengthsSameShape(bs, CategoryLists(spec));
    }
  }

  /** Block b of every vector sits right after the numeric part and the blocks before it. */
  lemma VectorBlockAt(frame: Frame, spec: VectorizerSpec, k: nat, b: nat, j: nat)
    requires Vectorize(frame, spec).Ok?
    requires k < |frame.rows| && b < |spec.categoricalCols|
    requires spec.categoricalCols[b] in spec.onehotCategories
    requires j < |spec.onehotCategories[spec.categoricalCols[b]]|
    ensures forall c :: c in spec.categoricalCols ==> c in spec.onehotCategories
    ensures var x := Vectorize(frame, spec).value;
            var p := |spec.numericCols| + SumLengths(CategoryLists(spec)[..b]) + j;
            p < |x[k]| &&
            x[k][p] == OneHotCell(Get(frame.rows[k], spec.categoricalCols[b]),
                                  spec.onehotCategories[spec.categoricalCols[b]], j)
  {
    var x := Vectorize(frame, spec).value;
    var num := NumericMatrix(frame.rows, spec.numericCols).value;
    var bs := OneHotBlocks(frame.rows[k], spec);
    FlattenAt(bs, b, j);
    SumLengthsSameShape(bs[..b], CategoryLists(spec)[..b]);
  }

  /** `vectorize_single`: the one-row frame of the sample. */
  function VectorizeSingle(sample: map<string, Json>, spec: VectorizerSpec): (r: Result<seq<seq<real>>, VectorizeError>)
    ensures r.Ok? ==> |r.value| == 1
    ensures (exists c :: c in spec.numericCols + spec.categoricalCols && c !in sample) ==>
              r.Err? && r.error.MissingColumns?
  {
    Vectorize(Frame(sample.Keys, [sample]), spec)
  }

  /** A single sample vectorises exactly when it has every required column, its numeric
      cells convert and every categorical column has a category list; the result is one row. */
  lemma VectorizeSingleShape(sample: map<string, Json>, spec: VectorizerSpec)
    ensures var r := VectorizeSingle(sample, spec);
            r.Ok? <==> (forall c :: c in spec.numericCols + spec.categoricalCols ==> c in sample) &&
                       NumericRow(sample, spec.numericCols).Some? &&
                       (forall c :: c in spec.categoricalCols ==> c in spec.onehotCategories)
    ensures var r := VectorizeSingle(sample, spec);
            r.Ok? ==> |r.value| == 1 && r.value[0] == VectorRow(NumericRow(sample, spec.numericCols).value, sample, spec)
  {
    var frame := Frame(sample.Keys, [sample]);
    var cols := spec.numericCols + spec.categoricalCols;
    assert EnsureColumns(frame, cols).None? <==> forall c :: c in cols ==> c in sample;
    assert frame.rows[0] == sample;
    if NumericRow(sample, spec.numericCols).None? {
      assert NumericMatrix(frame.rows, spec.numericCols).None?;
    }
  }

  /** `extract_labels`: None exactly when the label column is absent, else each row's label as an integer. */
  function ExtractLabels(frame: Frame, labelCol: string): (r: Option<Result<seq<int>, VectorizeError>>)
    ensures r.None? <==> labelCol !in frame.columns
    ensures r.Some? && r.value.Ok? ==> |r.value.value| == |frame.rows|
  {
    if labelCol !in frame.columns then None
    else
      var vs := ColumnValues(frame, labelCol);
      if forall k :: 0 <= k < |vs| ==> IntValue(vs[k]).Some? then
        Some(Ok(seq(|vs|, k requires 0 <= k < |vs| => IntValue(vs[k]).value)))
      else Some(Err(NotInteger))
  }

  /** A cell as int64: integers and booleans convert, floats truncate toward zero. */
  function IntValue(j: Json): (r: Option<int>)
    ensures r.Some? <==> j.JInt? || j.JNum? || j.JBool?
    ensures j.JInt? ==> r == Some(j.intValue)
    ensures j.JBool? ==> r == Some(if j.boolValue then 1 else 0)
    ensures j.JNum? && j.numValue >= 0.0 ==> r.value as real <= j.numValue < r.value as real + 1.0
    ensures j.JNum? && j.numValue < 0.0 ==> r.value as real - 1.0 < j.numValue <= r.value as real
  {
    match j
    case JInt(i) => Some(i)
    case JBool(b) => Some(if b then 1 else 0)
    case JNum(x) => Some(if x >= 0.0 then x.Floor else -((-x).Floor))
    case _ => None
  }
}
