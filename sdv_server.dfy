/** The SDV MCP server: each tool calls its `tools.py` function and turns a
    FileNotFoundError or RuntimeError into a returned error value. */
module SdvServer {
  import opened Strings
  import opened Exceptions
  import opened SdvTools

  /** What a wrapper hands back to the MCP client: a value, or an exception that
      escapes it. */
  datatype Outcome<T> = Returned(value: T) | Raised(error: Exception)

  /** The two `except` clauses: FileNotFoundError and RuntimeError become a value,
      anything else escapes. */
  function Catch<T>(r: Result<T>, handle: string -> T): (o: Outcome<T>)
    ensures r.Ok? ==> o == Returned(r.value)
    ensures r.Err? && (r.error.FileNotFoundError? || r.error.RuntimeError?) ==> o == Returned(handle(Str(r.error)))
    ensures o.Raised? <==> r.Err? && !(r.error.FileNotFoundError? || r.error.RuntimeError?)
  {
    match r
    case Ok(v) => Returned(v)
    case Err(e) => if e.FileNotFoundError? || e.RuntimeError? then Returned(handle(Str(e))) else Raised(e)
  }

  /** "Erro: " followed by the exception's text. */
  function ErrorText(message: string): string
  {
    "Erro: " + message
  }

  /** `sdv_generate(folder_name)`. */
  function SdvGenerate(folder: string, sdv: Sdv): (o: Outcome<string>)
    ensures Generated(folder, sdv).Ok? ==> o == Returned(Generated(folder, sdv).value)
    ensures Generated(folder, sdv).Err? ==> o == Returned("Erro: " + Str(Generated(folder, sdv).error))
  {
    Catch(Generated(folder, sdv), ErrorText)
  }

  /** What `sdv_evaluate` returns: the metrics dict or `{"error": …}`. */
  datatype Evaluation = Metrics(overallScore: real, properties: seq<seq<(string, string)>>) | ErrorDict(error: string)

  /** `sdv_evaluate(folder_name)`. */
  function SdvEvaluate(folder: string, sdv: Sdv): (o: Outcome<Evaluation>)
    ensures Evaluated(folder, sdv).Ok? ==>
      o == Returned(Metrics(Evaluated(folder, sdv).value.overallScore, Evaluated(folder, sdv).value.properties))
    ensures Evaluated(folder, sdv).Err? && Evaluated(folder, sdv).error.FileNotFoundError? ==>
      o == Returned(ErrorDict("Arquivo não encontrado: " + Evaluated(folder, sdv).error.msg))
    ensures Evaluated(folder, sdv).Err? && Evaluated(folder, sdv).error.RuntimeError? ==>
      o == Returned(ErrorDict("Avaliação falhou: " + Evaluated(folder, sdv).error.msg))
  {
    match Evaluated(folder, sdv)
    case Ok(q) => Returned(Metrics(q.overallScore, q.properties))
    case Err(e) =>
      if e.FileNotFoundError? then Returned(ErrorDict("Arquivo não encontrado: " + Str(e)))
      else if e.RuntimeError? then Returned(ErrorDict("Avaliação falhou: " + Str(e)))
      else Raised(e)
  }

  /** `sdv_visualize(folder_name, table_name, column_name)`: the plot folder is
      always the default. */
  function SdvVisualize(folder: string, table: string, column: string, sdv: Sdv): (o: Outcome<string>)
    ensures var v := Visualize(folder, table, column, DefaultPlotFolder, sdv);
      (v.Ok? ==> o == Returned(v.value)) && (v.Err? ==> o == Returned("Erro: " + Str(v.error)))
  {
    Catch(Visualize(folder, table, column, DefaultPlotFolder, sdv), ErrorText)
  }

  /** No tool of this server lets an exception escape: the tools raise only
      FileNotFoundError and RuntimeError, which the wrappers catch. */
  lemma WrappersNeverRaise(folder: string, table: string, column: string, sdv: Sdv)
    ensures SdvGenerate(folder, sdv).Returned?
    ensures SdvEvaluate(folder, sdv).Returned?
    ensures SdvVisualize(folder, table, column, sdv).Returned?
  {
  }

  /** A missing folder reaches the client as text naming it. */
  lemma MissingFolderReported(folder: string, table: string, column: string, sdv: Sdv)
    requires !sdv.pathExists(folder)
    ensures SdvGenerate(folder, sdv) == Returned("Erro: " + NoFolder(folder))
    ensures SdvEvaluate(folder, sdv) == Returned(ErrorDict("Arquivo não encontrado: " + NoRealFolder(folder)))
    ensures SdvVisualize(folder, table, column, sdv) == Returned("Erro: " + NoRealFolder(folder))
  {
  }
}
