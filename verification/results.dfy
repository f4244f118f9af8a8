/** The summary table of best test accuracies (`AccuracyResult`).

    The table has one row per network family (EEGNet, DeepConvNet) and one
    column per activation function.  Adding a family's accuracy curves keeps,
    in each cell, the best test accuracy seen so far for that family and
    activation.  Adding also names the chart file the curves are drawn into,
    and showing the table prints a label made of the hyper-parameters. */
module Results {
  import opened Wrappers
  import Training

  // ---------------------------------------------------------------------------
  // Columns and curve names
  // ---------------------------------------------------------------------------

  /** The table's columns, in order. */
  const Columns: seq<string> := ["ReLU", "Leaky ReLU", "ELU"]

  /** The model key each column reads its curve from. */
  const Mapping: map<string, string> := map["ELU" := "elu", "ReLU" := "relu", "Leaky ReLU" := "leaky_relu"]

  /** The name of the test curve column `i` reads. */
  function Key(i: nat): (k: string)
    requires i < |Columns|
    ensures k == ["relu_test", "leaky_relu_test", "elu_test"][i]
  {
    Mapping[Columns[i]] + "_test"
  }

  /** The dictionary lookup that fails: `KeyError(key)`. */
  datatype TableError = KeyError(key: string)

  /** `Accs` holds the test curve of every column. */
  predicate HasTestCurves(accs: map<string, seq<real>>)
  {
    forall i :: 0 <= i < |Columns| ==> Key(i) in accs
  }

  // ---------------------------------------------------------------------------
  // Cells
  // ---------------------------------------------------------------------------

  /** `max(curve)` of a non-empty curve. */
  function Max(curve: seq<real>): (m: real)
    requires curve != []
    ensures m in curve
    ensures forall x :: x in curve ==> x <= m
  {
    if |curve| == 1 then curve[0]
    else
      var m := Max(curve[1..]);
      assert forall x :: x in curve ==> x == curve[0] || x in curve[1..];
      if curve[0] > m then curve[0] else m
  }

  /** A cell after one curve is offered to it: it rises to the curve's best
      value when that is larger, and an empty curve leaves it alone. */
  function Best(cell: real, curve: seq<real>): (r: real)
    ensures cell <= r
    ensures forall x :: x in curve ==> x <= r
    ensures r == cell || r in curve
  {
    if curve != [] && Max(curve) > cell then Max(curve) else cell
  }

  /** Offering the same curve twice is offering it once. */
  lemma BestIdempotent(cell: real, curve: seq<real>)
    ensures Best(Best(cell, curve), curve) == Best(cell, curve)
  {
  }

  /** Two curves may be offered in either order. */
  lemma BestCommutes(cell: real, a: seq<real>, b: seq<real>)
    ensures Best(Best(cell, a), b) == Best(Best(cell, b), a)
  {
    var ab, ba := Best(Best(cell, a), b), Best(Best(cell, b), a);
    // both are the largest of cell, the values of a and the values of b
    assert ab == cell || ab in a || ab in b;
    assert ba == cell || ba in a || ba in b;
    assert ab <= ba && ba <= ab;
  }

  // ---------------------------------------------------------------------------
  // Rows
  // ---------------------------------------------------------------------------

  /** The row `add` writes for one family: the old row with every column's
      cell offered that column's test curve, or the KeyError of the first
      column whose curve is missing. */
  function Combine(row: seq<real>, accs: map<string, seq<real>>): (r: Result<seq<real>, TableError>)
    requires |row| == |Columns|
    ensures r.Ok? <==> HasTestCurves(accs)
    ensures r.Err? ==> exists i :: 0 <= i < |Columns| && r.error == KeyError(Key(i)) && Key(i) !in accs
                                   && forall j :: 0 <= j < i ==> Key(j) in accs
    ensures r.Ok? ==> |r.value| == |Columns|
    ensures r.Ok? ==> forall i :: 0 <= i < |Columns| ==>
      && row[i] <= r.value[i]
      && (forall x :: x in accs[Key(i)] ==> x <= r.value[i])
      && (r.value[i] == row[i] || r.value[i] in accs[Key(i)])
  {
    if Key(0) !in accs then Err(KeyError(Key(0)))
    else if Key(1) !in accs then Err(KeyError(Key(1)))
    else if Key(2) !in accs then Err(KeyError(Key(2)))
    else Ok([Best(row[0], accs[Key(0)]), Best(row[1], accs[Key(1)]), Best(row[2], accs[Key(2)])])
  }

  /** The loop of `add` over the columns, on the row it reads.  The length
      check after the loop can never fail: the row keeps its three cells. */
  method CombineRow(row: seq<real>, accs: map<string, seq<real>>) returns (r: Result<seq<real>, TableError>)
    requires |row| == |Columns|
    ensures r == Combine(row, accs)
  {
    var cells := row;
    var i := 0;
    while i < |Columns|
      invariant 0 <= i <= |Columns| && |cells| == |Columns|
      invariant forall j :: 0 <= j < i ==> Key(j) in accs && cells[j] == Best(row[j], accs[Key(j)])
      invariant forall j :: i <= j < |Columns| ==> cells[j] == row[j]
    {
      var key := Mapping[Columns[i]] + "_test";
      if key !in accs {
        return Err(KeyError(key));
      }
      var curve := accs[key];
      if curve != [] {
        var acc := Max(curve);
        if acc > cells[i] {
          cells := cells[i := acc];
        }
      }
      i := i + 1;
    }
    assert |cells| == |Columns|;
    assert cells == [cells[0], cells[1], cells[2]];
    return Ok(cells);
  }

  /** A row that was never written: `[0.0] * len(columns)`. */
  const FreshRow: seq<real> := [0.0, 0.0, 0.0]

  /** Every row of a table has one cell per column. */
  predicate WellFormed(df: map<string, seq<real>>)
  {
    forall name :: name in df ==> |df[name]| == |Columns|
  }

  /** The table after `add(name, accs, ...)`, or the KeyError it raises. */
  function AddRow(df: map<string, seq<real>>, name: string, accs: map<string, seq<real>>)
    : (r: Result<map<string, seq<real>>, TableError>)
    requires WellFormed(df)
    ensures r.Ok? <==> HasTestCurves(accs)
    ensures r.Err? ==> r.error == Combine(if name in df then df[name] else FreshRow, accs).error
    ensures r.Ok? ==> WellFormed(r.value) && r.value.Keys == df.Keys + {name}
    ensures r.Ok? ==> r.value[name] == Combine(if name in df then df[name] else FreshRow, accs).value
    ensures r.Ok? ==> forall other :: other in df && other != name ==> r.value[other] == df[other]
  {
    var row := if name in df then df[name] else FreshRow;
    match Combine(row, accs)
    case Err(e) => Err(e)
    case Ok(cells) => Ok(df[name := cells])
  }

  /** Adding the same curves twice leaves the table as adding them once. */
  lemma AddIdempotent(df: map<string, seq<real>>, name: string, accs: map<string, seq<real>>)
    requires WellFormed(df) && HasTestCurves(accs)
    ensures AddRow(AddRow(df, name, accs).value, name, accs) == AddRow(df, name, accs)
  {
    var once := AddRow(df, name, accs).value;
    var row := once[name];
    forall i | 0 <= i < |Columns|
      ensures Best(row[i], accs[Key(i)]) == row[i]
    {
      BestIdempotent((if name in df then df[name] else FreshRow)[i], accs[Key(i)]);
    }
    assert Combine(row, accs).value == row;
    assert once[name := row] == once;
  }

  /** Two runs of the same family may be added in either order. */
  lemma AddCommutes(df: map<string, seq<real>>, name: string, a: map<string, seq<real>>, b: map<string, seq<real>>)
    requires WellFormed(df) && HasTestCurves(a) && HasTestCurves(b)
    ensures AddRow(AddRow(df, name, a).value, name, b) == AddRow(AddRow(df, name, b).value, name, a)
  {
    var row := if name in df then df[name] else FreshRow;
    CombineCommutes(row, a, b);
    var ra, rb := Combine(row, a).value, Combine(row, b).value;
    assert AddRow(df, name, a).value == df[name := ra];
    assert AddRow(df, name, b).value == df[name := rb];
    assert df[name := ra][name := Combine(ra, b).value] == df[name := rb][name := Combine(rb, a).value];
  }

  lemma CombineCommutes(row: seq<real>, a: map<string, seq<real>>, b: map<string, seq<real>>)
    requires |row| == |Columns| && HasTestCurves(a) && HasTestCurves(b)
    ensures Combine(Combine(row, a).value, b) == Combine(Combine(row, b).value, a)
  {
    var k0, k1, k2 := Key(0), Key(1), Key(2);
    assert k0 in a && k1 in a && k2 in a && k0 in b && k1 in b && k2 in b;
    BestCommutes(row[0], a[k0], b[k0]);
    BestCommutes(row[1], a[k1], b[k1]);
    BestCommutes(row[2], a[k2], b[k2]);
  }

  /** Adding the curves of one family never lowers a cell of its row, and a
      family seen for the first time starts from zero. */
  lemma AddMonotone(df: map<string, seq<real>>, name: string, accs: map<string, seq<real>>)
    requires WellFormed(df) && HasTestCurves(accs)
    ensures var row := AddRow(df, name, accs).value[name];
      forall i :: 0 <= i < |Columns| ==> (if name in df then df[name][i] else 0.0) <= row[i]
  {
  }

  /** When every curve holds percentages, so does every cell. */
  lemma AddKeepsPercentages(df: map<string, seq<real>>, name: string, accs: map<string, seq<real>>)
    requires WellFormed(df) && HasTestCurves(accs)
    requires forall k :: k in df ==> Training.Percentages(df[k])
    requires forall i :: 0 <= i < |Columns| ==> Training.Percentages(accs[Key(i)])
    ensures var t := AddRow(df, name, accs).value;
      forall k :: k in t ==> Training.Percentages(t[k])
  {
    var t := AddRow(df, name, accs).value;
    var old_row := if name in df then df[name] else FreshRow;
    assert Training.Percentages(old_row);
    forall i | 0 <= i < |Columns|
      ensures 0.0 <= t[name][i] <= 100.0
    {
      var curve := accs[Key(i)];
      assert 0.0 <= old_row[i] <= 100.0;
      if t[name][i] != old_row[i] {
        var j :| 0 <= j < |curve| && curve[j] == t[name][i];
      }
    }
  }

  /** The script's use: the curves `runModels` returns for the models named
      relu, leaky_relu and elu always have the three test curves `add` reads,
      so adding them never raises. */
  lemma RunModelsFeedsAdd(keys: seq<string>, accs: map<string, seq<real>>, df: map<string, seq<real>>, name: string)
    requires Training.HasCurves(keys, accs)
    requires "relu" in keys && "leaky_relu" in keys && "elu" in keys
    requires WellFormed(df)
    ensures HasTestCurves(accs)
    ensures AddRow(df, name, accs).Ok?
  {
    forall i | 0 <= i < |Columns|
      ensures Key(i) in accs
    {
      var model := ["relu", "leaky_relu", "elu"][i];
      var j :| 0 <= j < |keys| && keys[j] == model;
      assert Key(i) == keys[j] + "_test";
    }
  }

  // ---------------------------------------------------------------------------
  // Labels and file names
  // ---------------------------------------------------------------------------

  /** One hyper-parameter, its name and its value as text: `(k, str(v))`. */
  type Param = (string, string)

  /** `k + link + v`. */
  function Entry(p: Param, link: string): string
  {
    p.0 + link + p.1
  }

  function Entries(para: seq<Param>, link: string): (r: seq<string>)
    ensures |r| == |para|
    ensures forall i :: 0 <= i < |para| ==> r[i] == Entry(para[i], link)
  {
    seq(|para|, i requires 0 <= i < |para| => Entry(para[i], link))
  }

  /** `sep.join(items)`. */
  function Join(items: seq<string>, sep: string): string
  {
    if items == [] then ""
    else if |items| == 1 then items[0]
    else Join(items[..|items| - 1], sep) + sep + items[|items| - 1]
  }

  /** `k + link + v + ", "` over the parameters, in order: what the loops of
      `add` and `show` accumulate. */
  function Terminated(para: seq<Param>, link: string): (r: string)
  {
    if para == [] then ""
    else Terminated(para[..|para| - 1], link) + Entry(para[|para| - 1], link) + ", "
  }

  /** Each entry followed by ", " is the entries joined by ", " plus one
      trailing ", ". */
  lemma {:induction false} TerminatedJoin(para: seq<Param>, link: string)
    requires para != []
    ensures Terminated(para, link) == Join(Entries(para, link), ", ") + ", "
  {
    var front := para[..|para| - 1];
    var es := Entries(para, link);
    assert es[..|es| - 1] == Entries(front, link);
    if front != [] {
      TerminatedJoin(front, link);
    }
  }

  /** Python's `s[:-2]`: all but the last two characters, and nothing when
      there are fewer than two. */
  function DropLastTwo(s: string): (r: string)
    ensures |s| >= 2 ==> r + s[|s| - 2..] == s
    ensures |s| < 2 ==> r == ""
  {
    s[..if |s| >= 2 then |s| - 2 else 0]
  }

  /** The chart's file name: the family name, then "_" and the parameters as
      `k=v` joined by ", ", then ".png".  With no parameters the lone "_" is
      cut by `[:-2]` and only the family name remains. */
  method ChartFileName(modelName: string, para: seq<Param>) returns (fname: string)
    ensures fname == modelName + (if para == [] then "" else "_" + Join(Entries(para, "="), ", ")) + ".png"
  {
    var name := "_";
    var i := 0;
    while i < |para|
      invariant 0 <= i <= |para|
      invariant name == "_" + Terminated(para[..i], "=")
    {
      assert para[..i + 1][..i] == para[..i];
      name := name + para[i].0 + "=" + para[i].1 + ", ";
      i := i + 1;
    }
    assert para[..|para|] == para;
    if para != [] {
      TerminatedJoin(para, "=");
    }
    name := DropLastTwo(name);
    fname := modelName + name + ".png";
  }

  /** `os.path.join('.', name)`: a name that is already absolute is kept,
      any other name is placed under the current directory ".". */
  function SavePath(name: string): (r: string)
    ensures r == name <==> |name| > 0 && name[0] == '/'
  {
    if |name| > 0 && name[0] == '/' then name else "./" + name
  }

  /** The file a path names, seen from the directory `cwd`: an absolute
      path names itself, a leading "./" names the same file as the rest of
      the path, and any other relative path lies under `cwd`. */
  function Resolve(cwd: string, path: string): string
    decreases |path|
  {
    if |path| > 0 && path[0] == '/' then path
    else if |path| >= 2 && path[..2] == "./" then Resolve(cwd, path[2..])
    else cwd + "/" + path
  }

  /** The saved path ends with the name it was given, and a relative name
      gains exactly the prefix "./". */
  lemma SavePathEndsWithName(name: string)
    ensures |SavePath(name)| >= |name| && SavePath(name)[|SavePath(name)| - |name|..] == name
    ensures !(|name| > 0 && name[0] == '/') ==> |SavePath(name)| == |name| + 2 && SavePath(name)[..2] == "./"
  {
  }

  /** Joining "." in front of a name does not change the file it names, from
      whatever directory the script runs in: the chart is saved where the
      bare name would have put it. */
  lemma SavePathSameFile(cwd: string, name: string)
    ensures Resolve(cwd, SavePath(name)) == Resolve(cwd, name)
  {
    if !(|name| > 0 && name[0] == '/') {
      var p := "./" + name;
      assert p[..2] == "./" && p[2..] == name;
    }
  }

  /** The label `show` prints above the table: the parameters as `k: v`
      joined by ", ", empty when there are none. */
  method ShowLabel(para: seq<Param>) returns (caption: string)
    ensures caption == Join(Entries(para, ": "), ", ")
  {
    var name := "";
    var i := 0;
    while i < |para|
      invariant 0 <= i <= |para|
      invariant name == Terminated(para[..i], ": ")
    {
      assert para[..i + 1][..i] == para[..i];
      name := name + para[i].0 + ": " + para[i].1 + ", ";
      i := i + 1;
    }
    assert para[..|para|] == para;
    if para != [] {
      TerminatedJoin(para, ": ");
    }
    caption := DropLastTwo(name);
  }

  // ---------------------------------------------------------------------------
  // The table object
  // ---------------------------------------------------------------------------

  /** The data frame: its rows by family name, and the order the rows were
      first added in. */
  class AccuracyResult {
    var df: map<string, seq<real>>
    var index: seq<string>

    ghost predicate Valid()
      reads this
    {
      && WellFormed(df)
      && Training.Distinct(index)
      && (forall i :: 0 <= i < |index| ==> index[i] in df)
      && (forall name :: name in df ==> name in index)
    }

    /** An empty table with the three columns. */
    constructor()
      ensures Valid() && df == map[] && index == []
    {
      df := map[];
      index := [];
    }

    /** `add`: folds the curves of one family into its row and returns the
        path of the chart it saves; on a KeyError nothing changes. */
    method Add(modelName: string, accs: map<string, seq<real>>, para: seq<Param>)
      returns (r: Result<string, TableError>)
      requires Valid()
      modifies this
      ensures Valid()
      ensures r.Err? ==> df == old(df) && index == old(index)
      ensures match AddRow(old(df), modelName, accs)
        case Err(e) => r == Err(e)
        case Ok(t) =>
          && df == t
          && index == old(index) + (if modelName in old(df) then [] else [modelName])
          && r.Ok?
          && r.value == SavePath(modelName + (if para == [] then "" else "_" + Join(Entries(para, "="), ", ")) + ".png")
    {
      var row := if modelName in df then df[modelName] else FreshRow;
      var cells := CombineRow(row, accs);
      if cells.Err? {
        return Err(cells.error);
      }
      if modelName !in df {
        index := index + [modelName];
      }
      df := df[modelName := cells.value];
      var fname := ChartFileName(modelName, para);
      r := Ok(SavePath(fname));
    }

    /** `show`: the label and the rows it prints, in the order they were
        first added. */
    method Show(para: seq<Param>) returns (caption: string, rows: seq<(string, seq<real>)>)
      requires Valid()
      ensures caption == Join(Entries(para, ": "), ", ")
      ensures |rows| == |index|
      ensures forall i :: 0 <= i < |rows| ==> rows[i] == (index[i], df[index[i]])
    {
      caption := ShowLabel(para);
      rows := seq(|index|, i requires 0 <= i < |index| && index[i] in df reads this => (index[i], df[index[i]]));
    }
  }
}
