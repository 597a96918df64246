/**
 * The catalogue of ready-made system prompts ("agents") and its numbered listing. The table keeps
 * each agent's title and category; the description and prompt texts are not reproduced.
 */
module Agents {
  import opened Text
  import opened Utils

  /** One agent of the table: its title and its category. */
  datatype Agent = Agent(title: string, category: string)

  /** The agent table, in the order the listing numbers it. */
  const Table: seq<Agent> := [
    Agent("Algorithm Optimization Expert", "Programming"),
    Agent("Code Refactor Assistant", "Programming"),
    Agent("Translate Assistant", "Programming"),
    Agent("Data Analysis Guide", "Research & Analysis"),
    Agent("Market Research Analyst", "Research & Analysis"),
    Agent("Text Summarizer", "Writing"),
    Agent("Time Management Advisor", "Productivity"),
    Agent("Task Prioritization Coach", "Productivity"),
    Agent("Healthy Lifestyle Coach", "Lifestyle"),
    Agent("Mindfulness Meditation Guide", "Lifestyle"),
    Agent("Essay Writing Assistant", "Writing"),
    Agent("Content Idea Generator", "Writing"),
    Agent("Research Paper Reviewer", "Research & Analysis"),
    Agent("Presentation Design Consultant", "Education"),
    Agent("Math Problem Solver", "Education"),
    Agent("Goal Setting Strategist", "Productivity"),
    Agent("Study Plan Advisor", "Education")
  ]

  const AgentsHeader: string := "🤖 Available Agents\n\n"
  const AgentsFooter: string := "\n\nUsage: /agents <number>\nExample: /agents 0"

  /** The titles, in table order. */
  function Titles(agents: seq<Agent>): (r: seq<string>)
    ensures |r| == |agents| && forall k :: 0 <= k < |agents| ==> r[k] == agents[k].title
  {
    seq(|agents|, k requires 0 <= k < |agents| => agents[k].title)
  }

  /** The listing of a table: the header, one numbered line per title, the usage footer. */
  method Listing(agents: seq<Agent>) returns (listing: string)
    ensures AgentsHeader <= listing
    ensures listing[|AgentsHeader|..] == Numbered(Titles(agents), 0) + AgentsFooter
  {
    var body := WriteNumbered(Titles(agents));
    listing := AgentsHeader + body + AgentsFooter;
    assert listing[|AgentsHeader|..] == body + AgentsFooter;
  }

  /**
   * `Agents`: the listing (a header, one numbered line per agent title, the usage footer) and the
   * very table the listing numbers.
   */
  method ListAgents() returns (listing: string, agents: seq<Agent>)
    ensures agents == Table && |agents| == 17
    ensures AgentsHeader <= listing
    ensures listing[|AgentsHeader|..] == Numbered(Titles(agents), 0) + AgentsFooter
  {
    agents := Table;
    listing := Listing(agents);
  }
}
