/**
  The goal prompt: the chat's goal key, looked up case-insensitively in the table of known goals,
  rendered as a title, a summary and a charter.
 */
module Goal {
  import opened Wrappers
  import opened Text
  import opened Js

  /** The key of the one goal the table knows. */
  const RaiseOneMillionKey := "raise-1-mil"

  /** A goal's texts. The table's prose is configuration and is taken as given. */
  datatype GoalText = GoalText(title: string, shortDescription: string, charter: string)

  /** The rendering of a known goal: the heading, then the Title, Summary and Charter sections. */
  function GoalSection(g: GoalText): (r: string)
    ensures StartsWith(r, "\n\n# Goal context\n\n## Title\n")
  {
    "\n\n# Goal context\n\n## Title\n" + g.title + "\n\n## Summary\n" + g.shortDescription + "\n\n## Charter\n" + g.charter
  }

  /**
    getGoalPrompt(data?.goalAddress). A falsy value gives ""; a truthy non-string makes
    `toLowerCase` throw; a string is lowercased and looked up.
   */
  function GetGoalPrompt(table: map<string, GoalText>, goalAddress: Value): (r: Result<string>)
    ensures !Truthy(goalAddress) ==> r == Ok("")
    ensures Truthy(goalAddress) && !goalAddress.Str? ==> r.Err?
    ensures goalAddress.Str? && goalAddress.s != "" && Lower(goalAddress.s) !in table ==> r == Ok("")
    ensures goalAddress.Str? && goalAddress.s != "" && Lower(goalAddress.s) in table ==>
      r == Ok(GoalSection(table[Lower(goalAddress.s)]))
  {
    if !Truthy(goalAddress) then Ok("")
    else if !goalAddress.Str? then Err("TypeError: goalAddress.toLowerCase is not a function")
    else
      var key := Lower(goalAddress.s);
      if key !in table then Ok("") else Ok(GoalSection(table[key]))
  }

  /** The lookup ignores ASCII case: keys that lowercase alike give the same prompt. */
  lemma GoalIgnoresCase(table: map<string, GoalText>, a: string, b: string)
    requires Lower(a) == Lower(b)
    ensures GetGoalPrompt(table, Str(a)) == GetGoalPrompt(table, Str(b))
  {
  }

  /** A known goal always renders a non-empty prompt. */
  lemma KnownGoalRenders(table: map<string, GoalText>, goalAddress: string)
    requires goalAddress != "" && Lower(goalAddress) in table
    ensures GetGoalPrompt(table, Str(goalAddress)).Ok? && GetGoalPrompt(table, Str(goalAddress)).value != ""
  {
  }

  /** "Raise-1-Mil" finds the "raise-1-mil" goal. */
  lemma MixedCaseKeyFound(table: map<string, GoalText>)
    requires RaiseOneMillionKey in table
    ensures GetGoalPrompt(table, Str("Raise-1-Mil")) == Ok(GoalSection(table[RaiseOneMillionKey]))
  {
    assert Lower("Raise-1-Mil") == RaiseOneMillionKey;
  }
}
