/** The confirmation gate of `ContainerCommand._update`:
    `assumeyes or (not assumeno and userconfirm(...))`, evaluated left to right
    with Python's short-circuiting `or` and `and`. */
module Gate {

  /** Whether the update goes ahead, and whether the operator was asked. */
  datatype Decision = Decision(proceed: bool, prompted: bool)

  /** `answer` is what the operator would reply if asked; it is only read
      when neither `assumeyes` nor `assumeno` settles the question. */
  function Confirm(assumeyes: bool, assumeno: bool, answer: bool): (d: Decision)
    ensures d.proceed <==> assumeyes || (!assumeno && answer)
    ensures d.prompted <==> !assumeyes && !assumeno
  {
    if assumeyes then Decision(true, false)
    else if assumeno then Decision(false, false)
    else Decision(answer, true)
  }

  /** When the operator is not asked, the reply they would have given changes nothing. */
  lemma UnpromptedIgnoresAnswer(assumeyes: bool, assumeno: bool)
    requires assumeyes || assumeno
    ensures Confirm(assumeyes, assumeno, true) == Confirm(assumeyes, assumeno, false)
    ensures !Confirm(assumeyes, assumeno, true).prompted
  {
  }

  /** `assumeyes` wins even when `assumeno` is also set. */
  lemma AssumeYesWins(assumeno: bool, answer: bool)
    ensures Confirm(true, assumeno, answer) == Decision(true, false)
  {
  }
}
