/**
 * The tool registry consulted when a model asks for a function call: ten fixed names, each bound
 * to one tool whose `CallTool(arguments)` produces the text sent back to the model. What the tools
 * themselves compute is a parameter here (`call`); several of them are modelled in their own modules.
 */
module Tools {

  datatype ToolKind =
    | Weather | Scraping | Notes | FileSystem | Tavily
    | CashFlow | Calendar | Converter | Python | Bash

  /** The name each tool is registered under. */
  const Registry: map<string, ToolKind> := map[
    "get_current_weather" := Weather,
    "scrape_web_data" := Scraping,
    "notes" := Notes,
    "filesystem" := FileSystem,
    "tavily_search" := Tavily,
    "cash_flow" := CashFlow,
    "calendar" := Calendar,
    "converter" := Converter,
    "execute_python" := Python,
    "bash" := Bash
  ]

  /** The reply for a function name nobody registered. */
  function NotAvailable(functionName: string): string {
    "Error: tool '" + functionName + "' not available."
  }

  /**
   * Looks `functionName` up in the registry and runs the tool found there on `arguments`;
   * an unknown name yields the not-available message and runs nothing.
   */
  function NewTools(functionName: string, arguments: string, call: (ToolKind, string) -> string): (r: string)
    ensures functionName !in Registry ==> r == NotAvailable(functionName)
    ensures functionName in Registry ==> r == call(Registry[functionName], arguments)
  {
    if functionName in Registry then call(Registry[functionName], arguments) else NotAvailable(functionName)
  }

  /** The name a tool is registered under. */
  function NameOf(kind: ToolKind): string {
    match kind
    case Weather => "get_current_weather"
    case Scraping => "scrape_web_data"
    case Notes => "notes"
    case FileSystem => "filesystem"
    case Tavily => "tavily_search"
    case CashFlow => "cash_flow"
    case Calendar => "calendar"
    case Converter => "converter"
    case Python => "execute_python"
    case Bash => "bash"
  }

  /**
   * The registry holds exactly the ten names, every tool is reachable, and each name leads to its
   * own tool, so no two names share one.
   */
  lemma RegistryIsExactlyTen()
    ensures Registry.Keys == {"get_current_weather", "scrape_web_data", "notes", "filesystem", "tavily_search",
                              "cash_flow", "calendar", "converter", "execute_python", "bash"}
    ensures forall kind: ToolKind :: NameOf(kind) in Registry && Registry[NameOf(kind)] == kind
    ensures forall name :: name in Registry ==> NameOf(Registry[name]) == name
  {
  }

  /** For a name outside the registry the tool behaviour is irrelevant: no tool is invoked. */
  lemma UnknownNameInvokesNothing(functionName: string, arguments: string, call1: (ToolKind, string) -> string,
                                  call2: (ToolKind, string) -> string)
    requires functionName !in Registry
    ensures NewTools(functionName, arguments, call1) == NewTools(functionName, arguments, call2)
    ensures NewTools(functionName, arguments, call1) == "Error: tool '" + functionName + "' not available."
  {
  }

  /** Lookup is exact and case-sensitive: a capitalised registered name is not found. */
  lemma LookupIsCaseSensitive(arguments: string, call: (ToolKind, string) -> string)
    ensures "Bash" !in Registry && "Notes" !in Registry
    ensures NewTools("Bash", arguments, call) == NotAvailable("Bash")
    ensures NewTools("bash", arguments, call) == call(Bash, arguments)
  {
  }
}
