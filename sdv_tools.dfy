/** The three SDV tools: `generate`, `evaluate` and `visualize`. Each checks its
    folders and files in a fixed order, raising FileNotFoundError, and then runs the
    SDV library inside a `try` that re-raises any exception as RuntimeError with a
    tool-specific prefix. The file system and the SDV library are the oracle `Sdv`. */
module SdvTools {
  import opened Strings
  import opened Exceptions

  /** A table read from a CSV file: its column names and its rows. */
  datatype Frame = Frame(columns: seq<string>, rows: seq<seq<string>>)

  /** What `evaluate` returns: the overall score and one record per property. */
  datatype Quality = Quality(overallScore: real, properties: seq<seq<(string, string)>>)

  /** The file system and the SDV library as `tools.py` uses them. Metadata is
      named by the path of its file. */
  datatype Sdv = Sdv(
    pathExists: string -> bool,
    // CSVHandler().read, Metadata.load_from_json, HMASynthesizer fit and sample
    synthesize: (string, string) -> Result<seq<(string, Frame)>>,
    makeDirs: string -> Result<()>,
    writeCsv: (string, Frame) -> Result<()>,
    // Metadata.load_from_json(file).tables
    loadTables: string -> Result<seq<string>>,
    readCsv: string -> Result<Frame>,
    evaluateQuality: (map<string, Frame>, map<string, Frame>, string) -> Result<Quality>,
    // get_column_plot: false when it returns None
    columnPlot: (map<string, Frame>, map<string, Frame>, string, string, string) -> Result<bool>,
    writeImage: string -> Result<()>,
    abspath: string -> string)

  const SyntheticFolder := "synthetic_data"
  const DefaultPlotFolder := "evaluation_plots"

  const NoSyntheticFolder := "A pasta de dados sintéticos não foi encontrada. Por favor, gere dados sintéticos primeiro usando o método SDV generate."
  const NoSyntheticFolderToPlot := "A pasta de dados sintéticos não foi encontrada. Por favor, gere dados sintéticos primeiro."

  /** The FileNotFoundError message for a missing metadata file. */
  function NoMetadata(file: string): string
  {
    "O arquivo de metadados " + file + " não existe."
  }

  /** The FileNotFoundError message for a missing real-data folder. */
  function NoRealFolder(folder: string): string
  {
    "A pasta de dados reais " + folder + " não existe."
  }

  /** The FileNotFoundError message of `generate` for a missing folder. */
  function NoFolder(folder: string): string
  {
    "A pasta " + folder + " não existe."
  }

  const GeneratePrefix := "Ocorreu um erro ao gerar dados sintéticos: "
  const EvaluatePrefix := "Ocorreu um erro durante a avaliação: "
  const VisualizePrefix := "Ocorreu um erro durante a visualização: "

  /** A folder's metadata file. */
  function MetadataFile(folder: string): string
  {
    PathJoin(folder, "metadata.json")
  }

  /** The exception raised inside a tool's `try`, re-raised as RuntimeError. */
  function Rewrap<T>(prefix: string, r: Result<T>): (w: Result<T>)
    ensures w.Ok? <==> r.Ok?
    ensures r.Ok? ==> w == r
    ensures r.Err? ==> w == Err(RuntimeError(prefix + Str(r.error)))
  {
    if r.Err? then Err(RuntimeError(prefix + Str(r.error))) else r
  }

  // ---- generate -----------------------------------------------------------------

  /** Where a synthetic table is saved. */
  function SyntheticPath(table: string): string
  {
    PathJoin(SyntheticFolder, table + ".csv")
  }

  function GenerateMessage(tables: seq<(string, Frame)>): string
  {
    "Dados gerados com sucesso e salvos na pasta 'synthetic_data' com " + IntToString(|tables|) +
    " tabelas nomeadas como " + ListRepr(seq(|tables|, i requires 0 <= i < |tables| => tables[i].0)) + " arquivos CSV."
  }

  /** Saving one synthetic table: the path written. */
  function SaveTable(sdv: Sdv): ((string, Frame)) -> Result<string>
  {
    (item: (string, Frame)) => (var w :- sdv.writeCsv(SyntheticPath(item.0), item.1); Ok(SyntheticPath(item.0)))
  }

  /** `generate(folder_name)`. */
  function Generated(folder: string, sdv: Sdv): (r: Result<string>)
    ensures !sdv.pathExists(folder) ==> r == Err(FileNotFoundError(NoFolder(folder)))
    ensures sdv.pathExists(folder) && !sdv.pathExists(MetadataFile(folder)) ==>
      r == Err(FileNotFoundError(NoMetadata(MetadataFile(folder))))
    ensures sdv.pathExists(folder) && sdv.pathExists(MetadataFile(folder)) && r.Err? ==>
      r.error.RuntimeError? && StartsWith(r.error.msg, GeneratePrefix)
  {
    if !sdv.pathExists(folder) then Err(FileNotFoundError(NoFolder(folder)))
    else
      var metadataFile := MetadataFile(folder);
      if !sdv.pathExists(metadataFile) then Err(FileNotFoundError(NoMetadata(metadataFile)))
      else Rewrap(GeneratePrefix,
        var tables :- sdv.synthesize(folder, metadataFile);
        var made :- sdv.makeDirs(SyntheticFolder);
        var written :- Traverse(SaveTable(sdv), tables);
        Ok(GenerateMessage(tables)))
  }

  /** A successful `generate` has written every synthetic table, each to its own
      CSV under "synthetic_data", and names them all in its message. */
  lemma GeneratedSavesEveryTable(folder: string, sdv: Sdv)
    requires Generated(folder, sdv).Ok?
    ensures sdv.pathExists(folder) && sdv.pathExists(MetadataFile(folder))
    ensures var tables := sdv.synthesize(folder, MetadataFile(folder));
      tables.Ok? && Generated(folder, sdv) == Ok(GenerateMessage(tables.value)) &&
      forall i :: 0 <= i < |tables.value| ==> sdv.writeCsv(SyntheticPath(tables.value[i].0), tables.value[i].1).Ok?
  {
    var tables := sdv.synthesize(folder, MetadataFile(folder)).value;
    assert forall i :: 0 <= i < |tables| ==> SaveTable(sdv)(tables[i]).Ok?;
  }

  /** `generate`: the two checks, then the library and the loop saving each table. */
  method Generate(folder: string, sdv: Sdv) returns (r: Result<string>)
    ensures r == Generated(folder, sdv)
  {
    if !sdv.pathExists(folder) {
      return Err(FileNotFoundError(NoFolder(folder)));
    }
    var metadataFile := MetadataFile(folder);
    if !sdv.pathExists(metadataFile) {
      return Err(FileNotFoundError(NoMetadata(metadataFile)));
    }
    var synthetic := sdv.synthesize(folder, metadataFile);
    if synthetic.Err? {
      return Err(RuntimeError(GeneratePrefix + Str(synthetic.error)));
    }
    var tables := synthetic.value;
    var made := sdv.makeDirs(SyntheticFolder);
    if made.Err? {
      return Err(RuntimeError(GeneratePrefix + Str(made.error)));
    }
    var save := SaveTable(sdv);
    ghost var written: seq<string> := [];
    var i := 0;
    assert tables[..0] == [];
    while i < |tables|
      invariant i <= |tables|
      invariant Traverse(save, tables[..i]) == Ok(written)
    {
      TraverseStep(save, tables, i);
      var w := sdv.writeCsv(SyntheticPath(tables[i].0), tables[i].1);
      if w.Err? {
        TraverseFailsEarly(save, tables, i + 1);
        return Err(RuntimeError(GeneratePrefix + Str(w.error)));
      }
      written := written + [SyntheticPath(tables[i].0)];
      i := i + 1;
    }
    assert tables[..i] == tables;
    r := Ok(GenerateMessage(tables));
  }

  // ---- evaluate -----------------------------------------------------------------

  /** Where a table's real data is read from. */
  function RealPath(folder: string, table: string): string
  {
    PathJoin(folder, table + ".csv")
  }

  /** Loading one table's real and synthetic frames. A missing file raises
      FileNotFoundError, which the enclosing `try` re-raises. */
  function LoadTable(folder: string, sdv: Sdv): string -> Result<(Frame, Frame)>
  {
    table => (
      if !sdv.pathExists(RealPath(folder, table)) then
        Err(FileNotFoundError("Arquivo de dados reais não encontrado: " + RealPath(folder, table)))
      else if !sdv.pathExists(SyntheticPath(table)) then
        Err(FileNotFoundError("Arquivo de dados sintéticos não encontrado: " + SyntheticPath(table)))
      else
        var realFrame :- sdv.readCsv(RealPath(folder, table));
        var synthetic :- sdv.readCsv(SyntheticPath(table));
        Ok((realFrame, synthetic)))
  }

  /** `real_data_dict` and `synthetic_data_dict` after the loop: each table name
      mapped to its frames, a later occurrence overwriting an earlier one. */
  function Dicts(tables: seq<string>, frames: seq<(Frame, Frame)>): (map<string, Frame>, map<string, Frame>)
    requires |frames| == |tables|
  {
    if tables == [] then (map[], map[])
    else
      var n := |tables| - 1;
      var d := Dicts(tables[..n], frames[..n]);
      (d.0[tables[n] := frames[n].0], d.1[tables[n] := frames[n].1])
  }

  /** The dicts are keyed by exactly the metadata's tables. */
  lemma {:induction false} DictsKeys(tables: seq<string>, frames: seq<(Frame, Frame)>)
    requires |frames| == |tables|
    ensures forall t :: t in Dicts(tables, frames).0 <==> t in tables
    ensures forall t :: t in Dicts(tables, frames).1 <==> t in tables
  {
    if tables != [] {
      var n := |tables| - 1;
      var ts := tables[..n];
      DictsKeys(ts, frames[..n]);
      forall t ensures t in tables <==> t in ts || t == tables[n] {
        assert tables == ts + [tables[n]];
      }
    }
  }

  /** With distinct table names (a dict's keys), each table holds its own frames. */
  lemma {:induction false} DictsValues(tables: seq<string>, frames: seq<(Frame, Frame)>)
    requires |frames| == |tables|
    requires forall i, j :: 0 <= i < j < |tables| ==> tables[i] != tables[j]
    ensures forall i :: 0 <= i < |tables| ==>
      tables[i] in Dicts(tables, frames).0 && Dicts(tables, frames).0[tables[i]] == frames[i].0 &&
      tables[i] in Dicts(tables, frames).1 && Dicts(tables, frames).1[tables[i]] == frames[i].1
  {
    if tables != [] {
      var n := |tables| - 1;
      var ts, fs := tables[..n], frames[..n];
      DictsValues(ts, fs);
      var d := Dicts(ts, fs);
      var e := Dicts(tables, frames);
      assert e == (d.0[tables[n] := frames[n].0], d.1[tables[n] := frames[n].1]);
      forall i | 0 <= i < n
        ensures tables[i] in e.0 && e.0[tables[i]] == frames[i].0 && tables[i] in e.1 && e.1[tables[i]] == frames[i].1
      {
        assert tables[i] != tables[n];
        assert ts[i] == tables[i] && fs[i] == frames[i];
        assert d.0[ts[i]] == fs[i].0 && d.1[ts[i]] == fs[i].1;
      }
    }
  }

  /** The loop of `evaluate`: every table's frames in the two dicts, or the first
      failure. */
  function Loaded(folder: string, sdv: Sdv, tables: seq<string>): Result<(map<string, Frame>, map<string, Frame>)>
  {
    var frames :- Traverse(LoadTable(folder, sdv), tables);
    Ok(Dicts(tables, frames))
  }

  /** `evaluate`'s loop over the metadata's tables, filling `real_data_dict` and
      `synthetic_data_dict`. */
  method LoadDicts(folder: string, sdv: Sdv, tables: seq<string>) returns (r: Result<(map<string, Frame>, map<string, Frame>)>)
    ensures r == Loaded(folder, sdv, tables)
  {
    var load := LoadTable(folder, sdv);
    var realData: map<string, Frame> := map[];
    var syntheticData: map<string, Frame> := map[];
    ghost var frames: seq<(Frame, Frame)> := [];
    var i := 0;
    assert tables[..0] == [];
    while i < |tables|
      invariant i <= |tables|
      invariant Traverse(load, tables[..i]) == Ok(frames)
      invariant (realData, syntheticData) == Dicts(tables[..i], frames)
    {
      TraverseStep(load, tables, i);
      var loaded := load(tables[i]);
      if loaded.Err? {
        TraverseFailsEarly(load, tables, i + 1);
        return Err(loaded.error);
      }
      assert tables[..i + 1][..i] == tables[..i] && (frames + [loaded.value])[..i] == frames;
      realData := realData[tables[i] := loaded.value.0];
      syntheticData := syntheticData[tables[i] := loaded.value.1];
      frames := frames + [loaded.value];
      i := i + 1;
    }
    assert tables[..i] == tables;
    r := Ok((realData, syntheticData));
  }

  /** `evaluate(folder_name)`. */
  function Evaluated(folder: string, sdv: Sdv): (r: Result<Quality>)
    ensures !sdv.pathExists(folder) ==> r == Err(FileNotFoundError(NoRealFolder(folder)))
    ensures sdv.pathExists(folder) && !sdv.pathExists(SyntheticFolder) ==>
      r == Err(FileNotFoundError(NoSyntheticFolder))
    ensures sdv.pathExists(folder) && sdv.pathExists(SyntheticFolder) && !sdv.pathExists(MetadataFile(folder)) ==>
      r == Err(FileNotFoundError(NoMetadata(MetadataFile(folder))))
    ensures sdv.pathExists(folder) && sdv.pathExists(SyntheticFolder) && sdv.pathExists(MetadataFile(folder)) && r.Err? ==>
      r.error.RuntimeError? && StartsWith(r.error.msg, EvaluatePrefix)
  {
    if !sdv.pathExists(folder) then Err(FileNotFoundError(NoRealFolder(folder)))
    else if !sdv.pathExists(SyntheticFolder) then
      Err(FileNotFoundError(NoSyntheticFolder))
    else
      var metadataFile := MetadataFile(folder);
      if !sdv.pathExists(metadataFile) then Err(FileNotFoundError(NoMetadata(metadataFile)))
      else Rewrap(EvaluatePrefix, Assessed(folder, metadataFile, sdv))
  }

  /** The body of `evaluate`'s `try`: the metadata's tables, their frames, and the
      quality report on them. */
  function Assessed(folder: string, metadataFile: string, sdv: Sdv): Result<Quality>
  {
    var tables :- sdv.loadTables(metadataFile);
    var dicts :- Loaded(folder, sdv, tables);
    sdv.evaluateQuality(dicts.0, dicts.1, metadataFile)
  }

  /** A successful evaluation found all three paths and every table's real and
      synthetic frames, and its result is the quality report on the two dicts
      holding those frames, with the metadata file. */
  lemma EvaluatedLoadsEveryTable(folder: string, sdv: Sdv)
    requires Evaluated(folder, sdv).Ok?
    ensures sdv.pathExists(folder) && sdv.pathExists(SyntheticFolder) && sdv.pathExists(MetadataFile(folder))
    ensures sdv.loadTables(MetadataFile(folder)).Ok?
    ensures var tables := sdv.loadTables(MetadataFile(folder)).value;
      forall i :: 0 <= i < |tables| ==> LoadTable(folder, sdv)(tables[i]).Ok?
    ensures var tables := sdv.loadTables(MetadataFile(folder)).value;
      var frames := seq(|tables|, i requires 0 <= i < |tables| => LoadTable(folder, sdv)(tables[i]).value);
      Evaluated(folder, sdv) ==
        sdv.evaluateQuality(Dicts(tables, frames).0, Dicts(tables, frames).1, MetadataFile(folder))
  {
    var tables := sdv.loadTables(MetadataFile(folder)).value;
    var frames := seq(|tables|, i requires 0 <= i < |tables| => LoadTable(folder, sdv)(tables[i]).value);
    assert Traverse(LoadTable(folder, sdv), tables).Ok?;
    assert Traverse(LoadTable(folder, sdv), tables).value == frames;
  }

  /** A per-table CSV that is missing surfaces as RuntimeError, not FileNotFoundError:
      the check sits inside the `try`. */
  lemma EvaluatedMissingCsv(folder: string, sdv: Sdv, k: nat)
    requires sdv.pathExists(folder) && sdv.pathExists(SyntheticFolder) && sdv.pathExists(MetadataFile(folder))
    requires var tables := sdv.loadTables(MetadataFile(folder));
      tables.Ok? && k < |tables.value| && !sdv.pathExists(RealPath(folder, tables.value[k])) &&
      forall i :: 0 <= i < k ==> LoadTable(folder, sdv)(tables.value[i]).Ok?
    ensures var t := sdv.loadTables(MetadataFile(folder)).value[k];
      Evaluated(folder, sdv) ==
        Err(RuntimeError(EvaluatePrefix + "Arquivo de dados reais não encontrado: " + RealPath(folder, t)))
  {
    var metadataFile := MetadataFile(folder);
    var tables := sdv.loadTables(metadataFile).value;
    var missing := FileNotFoundError("Arquivo de dados reais não encontrado: " + RealPath(folder, tables[k]));
    assert LoadTable(folder, sdv)(tables[k]) == Err(missing);
    LoadedFailsAt(folder, sdv, tables, k);
    assert Assessed(folder, metadataFile, sdv) == Err(missing);
    assert Evaluated(folder, sdv) == Rewrap(EvaluatePrefix, Assessed(folder, metadataFile, sdv));
  }

  /** The first table whose frames cannot be loaded decides the loop's failure. */
  lemma LoadedFailsAt(folder: string, sdv: Sdv, tables: seq<string>, k: nat)
    requires k < |tables| && LoadTable(folder, sdv)(tables[k]).Err?
    requires forall i :: 0 <= i < k ==> LoadTable(folder, sdv)(tables[i]).Ok?
    ensures Loaded(folder, sdv, tables) == Err(LoadTable(folder, sdv)(tables[k]).error)
  {
    var load := LoadTable(folder, sdv);
    assert tables[..k + 1][..k] == tables[..k];
    assert Traverse(load, tables[..k + 1]) == Err(load(tables[k]).error);
    TraverseFailsEarly(load, tables, k + 1);
  }

  /** `evaluate`: the three checks, then the `try` body, any failure in it re-raised
      as RuntimeError. */
  method Evaluate(folder: string, sdv: Sdv) returns (r: Result<Quality>)
    ensures r == Evaluated(folder, sdv)
  {
    if !sdv.pathExists(folder) {
      return Err(FileNotFoundError(NoRealFolder(folder)));
    }
    if !sdv.pathExists(SyntheticFolder) {
      return Err(FileNotFoundError(NoSyntheticFolder));
    }
    var metadataFile := MetadataFile(folder);
    if !sdv.pathExists(metadataFile) {
      return Err(FileNotFoundError(NoMetadata(metadataFile)));
    }
    var assessed := Assess(folder, metadataFile, sdv);
    r := Rewrap(EvaluatePrefix, assessed);
  }

  /** The body of `evaluate`'s `try`. */
  method Assess(folder: string, metadataFile: string, sdv: Sdv) returns (r: Result<Quality>)
    ensures r == Assessed(folder, metadataFile, sdv)
  {
    var tables :- sdv.loadTables(metadataFile);
    var dicts :- LoadDicts(folder, sdv, tables);
    r := sdv.evaluateQuality(dicts.0, dicts.1, metadataFile);
  }

  // ---- visualize ----------------------------------------------------------------

  /** `column_name.replace(" ", "_").replace("/", "_")`. */
  function SafeColumn(column: string): string
  {
    ReplaceChar(ReplaceChar(column, ' ', '_'), '/', '_')
  }

  /** The sanitised column keeps its length and every other character, with no
      space and no slash left. */
  lemma SafeColumnSanitises(column: string)
    ensures |SafeColumn(column)| == |column|
    ensures forall i :: 0 <= i < |column| ==> SafeColumn(column)[i] != ' ' && SafeColumn(column)[i] != '/'
    ensures forall i :: 0 <= i < |column| ==>
      SafeColumn(column)[i] == if column[i] == ' ' || column[i] == '/' then '_' else column[i]
  {
  }

  /** The plot's file name. */
  function PlotFile(table: string, column: string): string
  {
    table + "_" + SafeColumn(column) + ".png"
  }

  /** `visualize(folder_name, table_name, column_name, visualization_folder)`. */
  function Visualize(folder: string, table: string, column: string, plotFolder: string, sdv: Sdv): (r: Result<string>)
    ensures !sdv.pathExists(folder) ==> r == Err(FileNotFoundError(NoRealFolder(folder)))
    ensures sdv.pathExists(folder) && !sdv.pathExists(SyntheticFolder) ==>
      r == Err(FileNotFoundError(NoSyntheticFolderToPlot))
    ensures sdv.pathExists(folder) && sdv.pathExists(SyntheticFolder) && !sdv.pathExists(MetadataFile(folder)) ==>
      r == Err(FileNotFoundError(NoMetadata(MetadataFile(folder))))
    ensures sdv.pathExists(folder) && sdv.pathExists(SyntheticFolder) && sdv.pathExists(MetadataFile(folder)) && r.Err? ==>
      r.error.RuntimeError? && StartsWith(r.error.msg, VisualizePrefix)
    ensures r.Ok? ==>
      r.value == "Visualização para " + table + "." + column + " salva com sucesso em " +
                 sdv.abspath(PathJoin(plotFolder, PlotFile(table, column)))
  {
    if !sdv.pathExists(folder) then Err(FileNotFoundError(NoRealFolder(folder)))
    else if !sdv.pathExists(SyntheticFolder) then
      Err(FileNotFoundError(NoSyntheticFolderToPlot))
    else
      var metadataFile := MetadataFile(folder);
      if !sdv.pathExists(metadataFile) then Err(FileNotFoundError(NoMetadata(metadataFile)))
      else Rewrap(VisualizePrefix, Plot(folder, table, column, plotFolder, metadataFile, sdv))
  }

  /** The body of `visualize`'s `try`. */
  function Plot(folder: string, table: string, column: string, plotFolder: string, metadataFile: string, sdv: Sdv): (r: Result<string>)
    ensures r.Ok? ==> r.value == "Visualização para " + table + "." + column + " salva com sucesso em " +
                                 sdv.abspath(PathJoin(plotFolder, PlotFile(table, column)))
  {
    var tables :- sdv.loadTables(metadataFile);
    if table !in tables then Err(ValueError("A tabela '" + table + "' não foi encontrada nos metadados"))
    else
      var realPath := RealPath(folder, table);
      var syntheticPath := SyntheticPath(table);
      if !sdv.pathExists(realPath) then Err(FileNotFoundError("Arquivo de dados reais não encontrado: " + realPath))
      else if !sdv.pathExists(syntheticPath) then Err(FileNotFoundError("Arquivo de dados sintéticos não encontrado: " + syntheticPath))
      else
        var realFrame :- sdv.readCsv(realPath);
        var synthetic :- sdv.readCsv(syntheticPath);
        Draw(table, column, plotFolder, metadataFile, realFrame, synthetic, sdv)
  }

  /** The rest of `visualize`'s `try` once both frames are read: the column check,
      the plot and its file. */
  function Draw(table: string, column: string, plotFolder: string, metadataFile: string,
                realFrame: Frame, synthetic: Frame, sdv: Sdv): (r: Result<string>)
    ensures r.Ok? ==> r.value == "Visualização para " + table + "." + column + " salva com sucesso em " +
                                 sdv.abspath(PathJoin(plotFolder, PlotFile(table, column)))
  {
    if column !in realFrame.columns then
      Err(ValueError("A coluna '" + column + "' não foi encontrada na tabela '" + table + "'"))
    else
      var made :- sdv.makeDirs(plotFolder);
      var figure :- sdv.columnPlot(map[table := realFrame], map[table := synthetic], metadataFile, table, column);
      if !figure then Err(ValueError("Não foi possível gerar visualização para " + table + "." + column))
      else
        var filepath := PathJoin(plotFolder, PlotFile(table, column));
        var saved :- sdv.writeImage(filepath);
        Ok("Visualização para " + table + "." + column + " salva com sucesso em " + sdv.abspath(filepath))
  }

  /** The checks before the `try` pass and the metadata loads. */
  ghost predicate Prepared(folder: string, sdv: Sdv)
  {
    sdv.pathExists(folder) && sdv.pathExists(SyntheticFolder) && sdv.pathExists(MetadataFile(folder)) &&
    sdv.loadTables(MetadataFile(folder)).Ok?
  }

  /** An unknown table raises ValueError inside the `try`, so `visualize` reports it
      as RuntimeError. */
  lemma VisualizeUnknownTable(folder: string, table: string, column: string, plotFolder: string, sdv: Sdv)
    requires Prepared(folder, sdv) && table !in sdv.loadTables(MetadataFile(folder)).value
    ensures Visualize(folder, table, column, plotFolder, sdv) ==
      Err(RuntimeError(VisualizePrefix + "A tabela '" + table + "' não foi encontrada nos metadados"))
  {
    var plot := Plot(folder, table, column, plotFolder, MetadataFile(folder), sdv);
    assert plot == Err(ValueError("A tabela '" + table + "' não foi encontrada nos metadados"));
    assert Visualize(folder, table, column, plotFolder, sdv) == Rewrap(VisualizePrefix, plot);
  }

  /** Both frames of a known table load. */
  ghost predicate FramesLoad(folder: string, table: string, sdv: Sdv)
  {
    sdv.loadTables(MetadataFile(folder)).Ok? && table in sdv.loadTables(MetadataFile(folder)).value &&
    sdv.pathExists(RealPath(folder, table)) && sdv.pathExists(SyntheticPath(table)) &&
    sdv.readCsv(RealPath(folder, table)).Ok? && sdv.readCsv(SyntheticPath(table)).Ok?
  }

  /** A column the real table lacks raises ValueError inside the `try`: RuntimeError. */
  lemma VisualizeUnknownColumn(folder: string, table: string, column: string, plotFolder: string, sdv: Sdv)
    requires Prepared(folder, sdv) && FramesLoad(folder, table, sdv)
    requires column !in sdv.readCsv(RealPath(folder, table)).value.columns
    ensures Visualize(folder, table, column, plotFolder, sdv) ==
      Err(RuntimeError(VisualizePrefix + "A coluna '" + column + "' não foi encontrada na tabela '" + table + "'"))
  {
    var plot := Plot(folder, table, column, plotFolder, MetadataFile(folder), sdv);
    var draw := Draw(table, column, plotFolder, MetadataFile(folder), sdv.readCsv(RealPath(folder, table)).value,
                     sdv.readCsv(SyntheticPath(table)).value, sdv);
    assert draw == Err(ValueError("A coluna '" + column + "' não foi encontrada na tabela '" + table + "'"));
    assert plot == draw;
    assert Visualize(folder, table, column, plotFolder, sdv) == Rewrap(VisualizePrefix, plot);
  }

  /** A plot the library does not produce raises ValueError inside the `try`:
      RuntimeError. */
  lemma VisualizeNoFigure(folder: string, table: string, column: string, plotFolder: string, sdv: Sdv)
    requires Prepared(folder, sdv) && FramesLoad(folder, table, sdv)
    requires column in sdv.readCsv(RealPath(folder, table)).value.columns && sdv.makeDirs(plotFolder).Ok?
    requires sdv.columnPlot(map[table := sdv.readCsv(RealPath(folder, table)).value],
                            map[table := sdv.readCsv(SyntheticPath(table)).value],
                            MetadataFile(folder), table, column) == Ok(false)
    ensures Visualize(folder, table, column, plotFolder, sdv) ==
      Err(RuntimeError(VisualizePrefix + "Não foi possível gerar visualização para " + table + "." + column))
  {
    var plot := Plot(folder, table, column, plotFolder, MetadataFile(folder), sdv);
    var draw := Draw(table, column, plotFolder, MetadataFile(folder), sdv.readCsv(RealPath(folder, table)).value,
                     sdv.readCsv(SyntheticPath(table)).value, sdv);
    assert draw == Err(ValueError("Não foi possível gerar visualização para " + table + "." + column));
    assert plot == draw;
    assert Visualize(folder, table, column, plotFolder, sdv) == Rewrap(VisualizePrefix, plot);
  }
}
