// Optional values and the failures that abort a load.
module Results {

  datatype Option<T> = None | Some(value: T)

  /** Why a load is abandoned. The reader reports a code line that is not an
      integer with the line counter at that moment; every other failure is a
      runtime exception thrown by a decoder or a conversion (a null value
      handed to a number parser, a number that does not parse, a sub-range
      that is missing, a null reference, a failed cast, an index outside a
      list, a negative list capacity). Two more stand for what the model
      cannot represent. StackOverflow ends a drawing that runs out of the
      recursion depth it is given: a block that draws itself overflows at any
      depth (Conversion.SelfReferenceOverflows), while a drawing that
      finishes gives the same result with more depth
      (Conversion.EntityRunMoreFuel), so the bound only stands in for the
      Java stack. NonFiniteStrokeScale ends an INSERT whose scale factors sum
      to 0, whose stroke scale Java computes as a non-finite double. */
  datatype Failure =
    | CodeNotInteger(line: int)
    | UnexpectedEndOfInput
    | MalformedNumber(text: Option<string>)
    | MissingSubclass(marker: string)
    | NoSuchElement
    | NullReference
    | ClassCast
    | IndexOutOfBounds(index: int)
    | IllegalCapacity(capacity: int)
    | StackOverflow
    | NonFiniteStrokeScale

  datatype Outcome<T> = Ok(value: T) | Fail(failure: Failure)
  {
    predicate IsFailure() { Fail? }
    function PropagateFailure<U>(): Outcome<U>
      requires Fail?
    {
      Fail(failure)
    }
    function Extract(): T
      requires Ok?
    {
      value
    }
  }

  /** Appending to a sequence already appended to. */
  lemma AppendAssoc<T>(a: seq<T>, b: seq<T>, c: seq<T>)
    ensures a + b + c == a + (b + c)
  {
  }

  /** Steps run in order until the first one throws: all the values when
      every step succeeds, otherwise the first failure. */
  function CollectAll<T>(steps: seq<Outcome<T>>): (r: Outcome<seq<T>>)
    ensures r.Ok? <==> forall i :: 0 <= i < |steps| ==> steps[i].Ok?
    ensures r.Ok? ==> |r.value| == |steps| && forall i :: 0 <= i < |steps| ==> steps[i] == Ok(r.value[i])
  {
    if steps == [] then Ok([])
    else
      var init :- CollectAll(steps[..|steps| - 1]);
      assert forall i :: 0 <= i < |steps| - 1 ==> steps[..|steps| - 1][i] == steps[i];
      var last :- steps[|steps| - 1];
      Ok(init + [last])
  }

  /** Running one more step: the values so far extended by its value, or
      its failure, which is then the failure of every longer run. */
  lemma CollectAllStep<T>(steps: seq<Outcome<T>>, k: nat)
    requires k < |steps| && CollectAll(steps[..k]).Ok?
    ensures steps[k].Ok? ==> CollectAll(steps[..k + 1]) == Ok(CollectAll(steps[..k]).value + [steps[k].value])
    ensures steps[k].Fail? ==> CollectAll(steps) == Fail(steps[k].failure)
  {
    assert steps[..k + 1][..k] == steps[..k];
    if steps[k].Fail? {
      CollectAllFirstFailure(steps, k);
    }
  }

  /** The last step of a run that extends another. */
  lemma CollectAllLast<T>(a: seq<Outcome<T>>, b: seq<Outcome<T>>)
    requires b != []
    ensures CollectAll(a + b)
            == match CollectAll(a + b[..|b| - 1])
               case Fail(f) => Fail(f)
               case Ok(init) => (match b[|b| - 1] case Fail(f) => Fail(f) case Ok(last) => Ok(init + [last]))
  {
    assert (a + b)[..|a + b| - 1] == a + b[..|b| - 1];
  }

  /** Running two lists of steps one after the other: the first failure
      of the first list, else the first failure of the second, else all
      the values in order. */
  lemma {:induction false} CollectAllAppend<T>(a: seq<Outcome<T>>, b: seq<Outcome<T>>)
    ensures CollectAll(a + b)
            == match CollectAll(a)
               case Fail(f) => Fail(f)
               case Ok(first) => (match CollectAll(b) case Fail(f) => Fail(f) case Ok(second) => Ok(first + second))
    decreases |b|
  {
    if b == [] {
      assert a + b == a;
      assert CollectAll(b) == Ok([]);
      if CollectAll(a).Ok? {
        assert CollectAll(a).value + [] == CollectAll(a).value;
      }
    } else {
      var init := b[..|b| - 1];
      CollectAllAppend(a, init);
      CollectAllLast(a, b);
      CollectAllLast([], b);
      assert [] + b == b;
      assert [] + init == init;
      if CollectAll(a).Ok? && CollectAll(init).Ok? && b[|b| - 1].Ok? {
        assert CollectAll(a).value + CollectAll(init).value + [b[|b| - 1].value]
               == CollectAll(a).value + (CollectAll(init).value + [b[|b| - 1].value]);
      }
    }
  }

  /** The values of the steps that run before the first one throws: all of
      them when none throws. */
  function Completed<T>(steps: seq<Outcome<T>>): (r: seq<T>)
    ensures |r| <= |steps|
  {
    if steps == [] || steps[0].Fail? then [] else [steps[0].value] + Completed(steps[1..])
  }

  /** When the first k steps succeed and step k throws (or there is none),
      the completed values are exactly theirs. */
  lemma {:induction false} CompletedUpTo<T>(steps: seq<Outcome<T>>, k: nat)
    requires k <= |steps| && forall j :: 0 <= j < k ==> steps[j].Ok?
    requires k < |steps| ==> steps[k].Fail?
    ensures |Completed(steps)| == k && forall j :: 0 <= j < k ==> Completed(steps)[j] == steps[j].value
  {
    if k > 0 {
      CompletedUpTo(steps[1..], k - 1);
    }
  }

  /** A run whose first k steps succeed and whose step k throws leaves the
      values of those k steps; a run with no throw leaves all its values. */
  lemma CompletedIsCollected<T>(steps: seq<Outcome<T>>, k: nat)
    requires k <= |steps| && CollectAll(steps[..k]).Ok?
    requires k < |steps| ==> steps[k].Fail?
    ensures Completed(steps) == CollectAll(steps[..k]).value
  {
    assert forall j :: 0 <= j < k ==> steps[..k][j] == steps[j];
    CompletedUpTo(steps, k);
  }

  /** A run with no failure completes every step. */
  lemma CompletedAll<T>(steps: seq<Outcome<T>>)
    requires CollectAll(steps).Ok?
    ensures Completed(steps) == CollectAll(steps).value
  {
    assert steps[..|steps|] == steps;
    CompletedIsCollected(steps, |steps|);
  }

  /** Running the first step, then the rest. */
  lemma CollectAllFront<T>(steps: seq<Outcome<T>>)
    requires steps != [] && steps[0].Ok?
    ensures CollectAll(steps) == match CollectAll(steps[1..])
                                 case Fail(f) => Fail(f)
                                 case Ok(rest) => Ok([steps[0].value] + rest)
  {
    var first := CollectAll([steps[0]]);
    assert first.Ok? && |first.value| == 1 && [steps[0]][0] == Ok(first.value[0]);
    assert first.value == [steps[0].value];
    assert [steps[0]] + steps[1..] == steps;
    CollectAllAppend([steps[0]], steps[1..]);
  }

  /** The completed values of two runs one after the other. */
  lemma {:induction false} CompletedAppend<T>(a: seq<Outcome<T>>, b: seq<Outcome<T>>)
    ensures Completed(a + b) == if CollectAll(a).Ok? then CollectAll(a).value + Completed(b) else Completed(a)
  {
    if a == [] {
      assert a + b == b;
      assert CollectAll(a) == Ok([]);
    } else if a[0].Fail? {
      assert (a + b)[0] == a[0];
    } else {
      var rest := a[1..];
      assert (a + b)[0] == a[0];
      assert (a + b)[1..] == rest + b;
      CompletedAppend(rest, b);
      CollectAllFront(a);
      if CollectAll(rest).Ok? {
        assert [a[0].value] + (CollectAll(rest).value + Completed(b))
               == [a[0].value] + CollectAll(rest).value + Completed(b);
      }
    }
  }

  /** The failure reported is that of the first step that throws. */
  lemma {:induction false} CollectAllFirstFailure<T>(steps: seq<Outcome<T>>, k: nat)
    requires k < |steps| && steps[k].Fail?
    requires forall j :: 0 <= j < k ==> steps[j].Ok?
    ensures CollectAll(steps) == Fail(steps[k].failure)
    decreases |steps|
  {
    var n := |steps| - 1;
    if k < n {
      CollectAllFirstFailure(steps[..n], k);
    } else {
      assert forall j :: 0 <= j < n ==> steps[..n][j] == steps[j];
    }
  }
}
