/**
 * `get_system_prompt` (agentuse.py:10-51): the first history entry of a
 * session. Its prose is fixed; what varies is the goal line, the list of
 * custom tool templates in registration order, and the optional extra
 * instructions.
 */
module Prompt {
  import opened Wrappers
  import opened Text

  const Opening: string :=
    "You are a PROJECT MANAGER directing a coding assistant. You make all decisions and give clear instructions."

  const CommandsBlock: string :=
    "\n\nYOU DECIDE EVERYTHING. The assistant implements what you tell them.\n\n"
    + "OUTPUT FORMAT: One XML command only.\n\n"
    + "Commands:\n- <prompt>specific instruction</prompt>\n- <wait/>\n- <exit/>"

  const RoleBlock: string :=
    "\n\nYOUR ROLE:\n"
    + "- Give direct, specific instructions\n"
    + "- Make all technical decisions yourself\n"
    + "- Don't ask the assistant to choose - YOU choose\n"
    + "- Be decisive and clear about requirements\n"
    + "- Keep solutions simple and focused\n\n"
    + "Examples:\n"
    + "<prompt>create a simple calculator that adds two numbers</prompt>\n"
    + "<prompt>yes, save it as calculator.py</prompt>\n"
    + "<prompt>1</prompt>\n"
    + "<exit/>\n\n"
    + "NEVER output technical syntax or code in prompts. Only give natural instructions.\n\n"
    + "When you see options or questions from the assistant, make the decision and instruct them to proceed.\n\n"
    + "Exit when the core goal is achieved - don't over-engineer.\n"

  const ToolsHeading: string := "\n\nCustom Tools:"
  const ToolBullet: string := "\n- "
  const InstructionsHeading: string := "\n\nADDITIONAL INSTRUCTIONS:\n"

  /** `goal_text`: empty when the goal is empty. */
  function GoalLine(goal: string): string {
    if goal == [] then [] else "\n\nGOAL: " + goal
  }

  /** One bullet line per template, in registration order. */
  function ToolList(formats: seq<string>): string
  {
    if formats == [] then [] else ToolBullet + formats[0] + ToolList(formats[1..])
  }

  /** The tool section, present only when a tool is registered. */
  function ToolSection(formats: seq<string>): string {
    if formats == [] then [] else ToolsHeading + ToolList(formats)
  }

  /** The instructions section, present only for non-empty instructions. */
  function InstructionsSection(instructions: Option<string>): string {
    if instructions.Some? && instructions.value != [] then InstructionsHeading + instructions.value else []
  }

  /** The order of the parts of the system prompt, whatever their prose. */
  function Layout(opening: string, commands: string, role: string,
                  goal: string, formats: seq<string>, instructions: Option<string>): string {
    opening + GoalLine(goal) + commands + ToolSection(formats) + role + InstructionsSection(instructions)
  }

  function SystemPrompt(goal: string, formats: seq<string>, instructions: Option<string>): string {
    Layout(Opening, CommandsBlock, RoleBlock, goal, formats, instructions)
  }

  /** Each template gets its own bullet in the tool list. */
  lemma {:induction false} ToolListMentions(formats: seq<string>, k: nat)
    requires k < |formats|
    ensures Contains(ToolList(formats), ToolBullet + formats[k])
  {
    var line := ToolBullet + formats[0];
    var rest := ToolList(formats[1..]);
    assert ToolList(formats) == line + rest;
    if k == 0 {
      ContainsSelf(line);
      ContainsAppend(line, line, rest);
    } else {
      ToolListMentions(formats[1..], k - 1);
      ContainsPrepend(ToolBullet + formats[k], line, rest);
    }
  }

  /** The layout keeps each tool's bullet line. */
  lemma LayoutListsTools(opening: string, commands: string, role: string,
                         goal: string, formats: seq<string>, instructions: Option<string>, k: nat)
    requires k < |formats|
    ensures Contains(Layout(opening, commands, role, goal, formats, instructions), ToolBullet + formats[k])
  {
    var p := ToolBullet + formats[k];
    var front := opening + GoalLine(goal) + commands;
    ToolListMentions(formats, k);
    ContainsPrepend(p, ToolsHeading, ToolList(formats));
    ContainsPrepend(p, front, ToolSection(formats));
    ContainsAppend(p, front + ToolSection(formats), role);
    ContainsAppend(p, front + ToolSection(formats) + role, InstructionsSection(instructions));
  }

  /** The layout quotes the goal line and the instructions section whole. */
  lemma LayoutQuotes(opening: string, commands: string, role: string,
                     goal: string, formats: seq<string>, instructions: Option<string>)
    ensures goal != [] ==> Contains(Layout(opening, commands, role, goal, formats, instructions), "\n\nGOAL: " + goal)
    ensures instructions.Some? && instructions.value != [] ==>
      Contains(Layout(opening, commands, role, goal, formats, instructions), InstructionsHeading + instructions.value)
  {
    var g, t, ins := GoalLine(goal), ToolSection(formats), InstructionsSection(instructions);
    if goal != [] {
      ContainsSelf(g);
      ContainsPrepend(g, opening, g);
      ContainsAppend(g, opening + g, commands);
      ContainsAppend(g, opening + g + commands, t);
      ContainsAppend(g, opening + g + commands + t, role);
      ContainsAppend(g, opening + g + commands + t + role, ins);
    }
    if instructions.Some? && instructions.value != [] {
      ContainsSelf(ins);
      ContainsPrepend(ins, opening + g + commands + t + role, ins);
    }
  }

  /** The system prompt offers every registered template to the model, each on its own bullet line. */
  lemma SystemPromptListsTools(goal: string, formats: seq<string>, instructions: Option<string>, k: nat)
    requires k < |formats|
    ensures Contains(SystemPrompt(goal, formats, instructions), ToolBullet + formats[k])
  {
    LayoutListsTools(Opening, CommandsBlock, RoleBlock, goal, formats, instructions, k);
  }

  /** The goal and the extra instructions are quoted whole. */
  lemma SystemPromptQuotes(goal: string, formats: seq<string>, instructions: Option<string>)
    ensures goal != [] ==> Contains(SystemPrompt(goal, formats, instructions), "\n\nGOAL: " + goal)
    ensures instructions.Some? && instructions.value != [] ==>
      Contains(SystemPrompt(goal, formats, instructions), InstructionsHeading + instructions.value)
  {
    LayoutQuotes(Opening, CommandsBlock, RoleBlock, goal, formats, instructions);
  }
}
