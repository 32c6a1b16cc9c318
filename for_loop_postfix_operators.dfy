/**
 * The rewrite that makes `for` loop counters use postfix operators: in the
 * update list of a `for` loop, `++i` becomes `i++` and `--i` becomes `i--`.
 */
module ForLoopPostfixOperators {
  import opened JavaTree

  datatype ForControl = ForControl(init: seq<J>, condition: J, update: seq<J>)

  datatype ForLoop = ForLoop(control: ForControl, body: J)

  /** A prefix increment or decrement, the updates the rewrite changes. */
  predicate IsPrefixStep(update: J)
  {
    update.Unary? && (update.unaryOperator == PreIncrement || update.unaryOperator == PreDecrement)
  }

  /** The new form of one update. */
  function Postfixed(update: J): (r: J)
    ensures !IsPrefixStep(r)
    ensures !IsPrefixStep(update) ==> r == update
    ensures IsPrefixStep(update) ==>
      r.Unary? && r.expression == update.expression &&
      r.unaryOperator == (if update.unaryOperator == PreIncrement then PostIncrement else PostDecrement)
  {
    if update.Unary? then
      if update.unaryOperator == PreIncrement then update.(unaryOperator := PostIncrement)
      else if update.unaryOperator == PreDecrement then update.(unaryOperator := PostDecrement)
      else update
    else
      update
  }

  /** The update list mapped element by element (`ListUtils.map`). */
  function MapUpdates(updates: seq<J>): (r: seq<J>)
    ensures |r| == |updates|
    ensures forall i :: 0 <= i < |updates| ==> r[i] == Postfixed(updates[i])
  {
    if updates == [] then [] else [Postfixed(updates[0])] + MapUpdates(updates[1..])
  }

  /** `visitForLoop`: only the control's update list is replaced. */
  function VisitForLoop(loop: ForLoop): (r: ForLoop)
    ensures r.control.init == loop.control.init
    ensures r.control.condition == loop.control.condition
    ensures r.body == loop.body
    ensures |r.control.update| == |loop.control.update|
    ensures forall i :: 0 <= i < |loop.control.update| ==>
      r.control.update[i] == Postfixed(loop.control.update[i])
  {
    loop.(control := loop.control.(update := MapUpdates(loop.control.update)))
  }

  /** After the rewrite no update is a prefix increment or decrement. */
  lemma NoPrefixStepRemains(loop: ForLoop)
    ensures forall i :: 0 <= i < |VisitForLoop(loop).control.update| ==>
      !IsPrefixStep(VisitForLoop(loop).control.update[i])
  {
  }

  /** A loop is left as it is exactly when none of its updates is a prefix step. */
  lemma UnchangedIffNoPrefixStep(loop: ForLoop)
    ensures VisitForLoop(loop) == loop <==>
      forall i :: 0 <= i < |loop.control.update| ==> !IsPrefixStep(loop.control.update[i])
  {
    var r := VisitForLoop(loop);
    if r == loop {
      forall i | 0 <= i < |loop.control.update|
        ensures !IsPrefixStep(loop.control.update[i])
      {
        assert r.control.update[i] == loop.control.update[i];
      }
    }
  }

  /** Applying the rewrite twice is applying it once. */
  lemma Idempotent(loop: ForLoop)
    ensures VisitForLoop(VisitForLoop(loop)) == VisitForLoop(loop)
  {
    NoPrefixStepRemains(loop);
    UnchangedIffNoPrefixStep(VisitForLoop(loop));
  }
}
