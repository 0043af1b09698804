// The design-methodology agent: a fixed five-step plan, headed by the
// project description when one is given, joined into one text with
// newlines.

module DesignMethodologyAgent {
  import PyStrings

  // Long literals are written as concatenations of short ones, which the
  // verifier can look into character by character.
  const Steps: seq<string> := [
    "1. Identificar los requerimientos " + "técnicos y objetivos del proyecto.",
    "2. Proponer un enfoque metodológico " + "adecuado al alcance.",
    "3. Definir la arquitectura de " + "desarrollo y herramientas a emplear.",
    "4. Establecer un plan de pruebas " + "y evaluación técnica.",
    "5. Documentar el proceso y resultados."
  ]

  const ProjectPrefix: string := "Proyecto: "

  predicate NoNewline(lines: seq<string>)
  {
    PyStrings.NoneContains(lines, '\n')
  }

  function SplitLines(text: string): seq<string>
  {
    PyStrings.Split(text, '\n')
  }

  /** DesignMethodologyAgent.run */
  function Run(projectDescription: string): (plan: string)
  {
    var steps := if projectDescription != "" then [ProjectPrefix + projectDescription] + Steps else Steps;
    PyStrings.Join(steps, '\n')
  }

  /**
   * The plan's lines are the five fixed steps, in order, preceded by
   * "Proyecto: <description>" exactly when the description is not empty
   * (a description without newlines gives six lines, an empty one five).
   */
  lemma RunLines(projectDescription: string)
    requires '\n' !in projectDescription
    ensures SplitLines(Run(projectDescription))
      == (if projectDescription != "" then [ProjectPrefix + projectDescription] else []) + Steps
    ensures |SplitLines(Run(projectDescription))| == if projectDescription == "" then 5 else 6
  {
    StepsHaveNoNewline();
    if projectDescription != "" {
      var head := ProjectPrefix + projectDescription;
      assert '\n' !in head;
      HeadedNoNewline(head);
      PyStrings.SplitJoin([head] + Steps, '\n');
    } else {
      PyStrings.SplitJoin(Steps, '\n');
    }
  }

  lemma HeadedNoNewline(head: string)
    requires '\n' !in head && NoNewline(Steps)
    ensures NoNewline([head] + Steps)
  {
    var steps := [head] + Steps;
    assert forall i :: 1 <= i < |steps| ==> steps[i] == Steps[i - 1];
  }

  lemma StepsHaveNoNewline()
    ensures NoNewline(Steps)
  {
    forall i | 0 <= i < |Steps|
      ensures '\n' !in Steps[i]
    {
      StepHasNoNewline(i);
    }
  }

  lemma StepHasNoNewline(i: int)
    requires 0 <= i < |Steps|
    ensures '\n' !in Steps[i]
  {
    if i == 0 { Step0(); } else if i == 1 { Step1(); } else if i == 2 { Step2(); } else if i == 3 { Step3(); }
  }
  lemma Step0() ensures '\n' !in Steps[0] {}
  lemma Step1() ensures '\n' !in Steps[1] {}
  lemma Step2() ensures '\n' !in Steps[2] {}
  lemma Step3() ensures '\n' !in Steps[3] {}

  /** The plan opens with "Proyecto: " exactly when a description was given. */
  lemma RunHeadedByProject(projectDescription: string)
    ensures projectDescription != "" ==> ProjectPrefix <= Run(projectDescription)
    ensures projectDescription == "" ==> Run(projectDescription)[..|ProjectPrefix|] == Steps[0][..|ProjectPrefix|]
    ensures projectDescription == "" ==> !(ProjectPrefix <= Run(projectDescription))
  {
    var steps := if projectDescription != "" then [ProjectPrefix + projectDescription] + Steps else Steps;
    assert Run(projectDescription) == steps[0] + "\n" + PyStrings.Join(steps[1..], '\n');
    if projectDescription == "" {
      assert Steps[0][0] == '1';
    }
  }
}
