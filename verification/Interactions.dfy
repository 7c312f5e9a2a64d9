/** Interactions, their answers and tool decisions: src/interaction.rs, src/tools/input.rs, src/tools/policy.rs. */
module Interactions {
  import opened Common
  import opened Text

  const MAX_POLICY_TEXT_BYTES: nat := 8192
  const MAX_INPUT_TEXT_BYTES: nat := 8192
  const MAX_CHOICE_BYTES: nat := 1024
  const MAX_CHOICES: nat := 32

  datatype AnswerKind = TextAnswer | SingleChoice

  datatype ToolInputRequest = ToolInputRequest(prompt: string, choices: seq<string>, answerKind: AnswerKind)

  datatype ToolInputAnswer = InputText(text: string) | Choice(index: nat)

  datatype ApprovalDecision = AllowOnce | Deny

  datatype InteractionKind = Approval(prompt: string) | ToolInput(request: ToolInputRequest)

  datatype InteractionAnswer = ApprovalAnswer(decision: ApprovalDecision) | InputAnswer(answer: ToolInputAnswer)

  datatype ToolDecision = AllowCall | DenyCall(reason: string) | RequireApproval(prompt: string)

  predicate DecisionValid(d: ToolDecision) {
    match d
    case AllowCall => true
    case DenyCall(reason) => ValidText(reason, MAX_POLICY_TEXT_BYTES, false)
    case RequireApproval(prompt) => ValidText(prompt, MAX_POLICY_TEXT_BYTES, false)
  }

  predicate InputRequestValid(r: ToolInputRequest) {
    && ValidText(r.prompt, MAX_INPUT_TEXT_BYTES, false)
    && |r.choices| <= MAX_CHOICES
    && (forall c | c in r.choices :: ValidText(c, MAX_CHOICE_BYTES, false))
    && (r.answerKind == SingleChoice ==> r.choices != [])
  }

  predicate InputAnswerValid(a: ToolInputAnswer, r: ToolInputRequest) {
    match (a, r.answerKind)
    case (InputText(text), TextAnswer) => ValidText(text, MAX_INPUT_TEXT_BYTES, false)
    case (Choice(index), SingleChoice) => index < |r.choices|
    case _ => false
  }

  /** `InteractionAnswer::validate`: kinds match, and an input answer fits its request. */
  predicate AnswerMatches(answer: InteractionAnswer, kind: InteractionKind) {
    match (answer, kind)
    case (ApprovalAnswer(_), Approval(_)) => true
    case (InputAnswer(a), ToolInput(r)) => InputAnswerValid(a, r)
    case _ => false
  }

  /** The canonical result object before its (library) JSON rendering. */
  datatype CanonicalResult = AnswerResult(answer: string) | ChoiceResult(index: nat, choice: string)

  /** `encode_result`; a matching answer makes the choice lookup safe. */
  function EncodeResult(a: ToolInputAnswer, r: ToolInputRequest): (result: CanonicalResult)
    requires InputAnswerValid(a, r)
    ensures result.ChoiceResult? ==> result.choice in r.choices
  {
    match a
    case InputText(text) => AnswerResult(text)
    case Choice(index) => ChoiceResult(index, r.choices[index])
  }
}
