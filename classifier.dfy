/**
 * The classifier: `processFailures`, which routes every validation failure by
 * the action of its check and accumulates the warn-tier and the block-tier
 * messages with `utils.WithMessage`.
 */
module Classifier {

  import opened Catalog

  /** `validators.ValidationFailure`: the check that failed and its human-readable text. */
  datatype ValidationFailure = ValidationFailure(id: CheckID, message: string)

  /**
   * `types.NamespacedName` of the import request; passed through, and used only
   * to correlate log lines and to hand the namespace to the network-mapping validator.
   */
  datatype NamespacedName = NamespacedName(namespace: string, name: string)

  /** `utils.WithMessage(accumulated, next)`: the message-joining helper, which is not part of this model. */
  type Joiner = (string, string) -> string

  /** The two strings `processFailures` returns. */
  datatype Accumulated = Accumulated(warnMessage: string, errorMessage: string)

  const Empty := Accumulated("", "")

  /**
   * The classifier reads the catalog through `actionOf`, which the orchestrator
   * instantiates with `Catalog.ActionOf` (the lookup of `checkToAction`).
   */
  type ActionLookup = CheckID -> Action

  /** One iteration of the loop in `processFailures`: the `switch` on the failure's action. */
  function Step(actionOf: ActionLookup, withMessage: Joiner, acc: Accumulated, f: ValidationFailure): (next: Accumulated)
    ensures actionOf(f.id) != Warn ==> next.warnMessage == acc.warnMessage
    ensures actionOf(f.id) != Block ==> next.errorMessage == acc.errorMessage
    ensures actionOf(f.id) == Warn ==> next.warnMessage == withMessage(acc.warnMessage, f.message)
    ensures actionOf(f.id) == Block ==> next.errorMessage == withMessage(acc.errorMessage, f.message)
  {
    match actionOf(f.id)
    case Log => acc
    case Warn => acc.(warnMessage := withMessage(acc.warnMessage, f.message))
    case Block => acc.(errorMessage := withMessage(acc.errorMessage, f.message))
  }

  /** The loop of `processFailures` as a left fold of `Step` over the failures, in order. */
  function Accumulate(actionOf: ActionLookup, withMessage: Joiner, acc: Accumulated, failures: seq<ValidationFailure>): (r: Accumulated)
    ensures (forall i :: 0 <= i < |failures| ==> actionOf(failures[i].id) != Warn) ==> r.warnMessage == acc.warnMessage
    ensures (forall i :: 0 <= i < |failures| ==> actionOf(failures[i].id) != Block) ==> r.errorMessage == acc.errorMessage
    decreases |failures|
  {
    if failures == [] then acc
    else Accumulate(actionOf, withMessage, Step(actionOf, withMessage, acc, failures[0]), failures[1..])
  }

  /** The failures whose check has action `a`, in input order. */
  function Bucket(actionOf: ActionLookup, failures: seq<ValidationFailure>, a: Action): (b: seq<ValidationFailure>)
    ensures |b| <= |failures|
    ensures forall f :: f in b ==> f in failures && actionOf(f.id) == a
    decreases |failures|
  {
    if failures == [] then []
    else if actionOf(failures[0].id) == a then [failures[0]] + Bucket(actionOf, failures[1..], a)
    else Bucket(actionOf, failures[1..], a)
  }

  function MessagesOf(failures: seq<ValidationFailure>): (ms: seq<string>)
    ensures |ms| == |failures|
    ensures forall i :: 0 <= i < |failures| ==> ms[i] == failures[i].message
    decreases |failures|
  {
    if failures == [] then [] else [failures[0].message] + MessagesOf(failures[1..])
  }

  /** Left fold of `withMessage` over `messages`, starting from `acc`. */
  function FoldMessages(withMessage: Joiner, acc: string, messages: seq<string>): string
    decreases |messages|
  {
    if messages == [] then acc else FoldMessages(withMessage, withMessage(acc, messages[0]), messages[1..])
  }

  lemma MessagesOfCons(f: ValidationFailure, failures: seq<ValidationFailure>)
    ensures MessagesOf([f] + failures) == [f.message] + MessagesOf(failures)
  {
  }

  lemma FoldMessagesCons(withMessage: Joiner, acc: string, m: string, messages: seq<string>)
    ensures FoldMessages(withMessage, acc, [m] + messages) == FoldMessages(withMessage, withMessage(acc, m), messages)
  {
  }

  /** The warn accumulator, defined bucket-first: fold the messages of the warn-tier failures. */
  function WarnMessage(actionOf: ActionLookup, withMessage: Joiner, failures: seq<ValidationFailure>): string {
    FoldMessages(withMessage, "", MessagesOf(Bucket(actionOf, failures, Warn)))
  }

  /** The error accumulator, defined bucket-first: fold the messages of the block-tier failures. */
  function ErrorMessage(actionOf: ActionLookup, withMessage: Joiner, failures: seq<ValidationFailure>): string {
    FoldMessages(withMessage, "", MessagesOf(Bucket(actionOf, failures, Block)))
  }

  /**
   * The loop and the bucket-first reading agree: each accumulator is the fold,
   * from where it started, over exactly the messages of its own tier.
   */
  lemma {:induction false} AccumulateIsBucketFold(actionOf: ActionLookup, withMessage: Joiner, acc: Accumulated, failures: seq<ValidationFailure>)
    ensures Accumulate(actionOf, withMessage, acc, failures) ==
      Accumulated(FoldMessages(withMessage, acc.warnMessage, MessagesOf(Bucket(actionOf, failures, Warn))),
                  FoldMessages(withMessage, acc.errorMessage, MessagesOf(Bucket(actionOf, failures, Block))))
    decreases |failures|
  {
    if failures != [] {
      var f, rest := failures[0], failures[1..];
      AccumulateIsBucketFold(actionOf, withMessage, Step(actionOf, withMessage, acc, f), rest);
      var tier := actionOf(f.id);
      forall a | a != tier
        ensures MessagesOf(Bucket(actionOf, failures, a)) == MessagesOf(Bucket(actionOf, rest, a))
      {
      }
      MessagesOfCons(f, Bucket(actionOf, rest, tier));
      FoldMessagesCons(withMessage, if tier == Warn then acc.warnMessage else acc.errorMessage,
                       f.message, MessagesOf(Bucket(actionOf, rest, tier)));
    }
  }

  /** `processFailures` started from two empty strings computes the two bucket folds. */
  lemma ProcessFailuresIsBucketFold(actionOf: ActionLookup, withMessage: Joiner, failures: seq<ValidationFailure>)
    ensures Accumulate(actionOf, withMessage, Empty, failures) ==
      Accumulated(WarnMessage(actionOf, withMessage, failures), ErrorMessage(actionOf, withMessage, failures))
  {
    AccumulateIsBucketFold(actionOf, withMessage, Empty, failures);
  }

  /**
   * `processFailures`. The failures it hands to `logger.Info` (each together
   * with `vmiCrName`) are recorded in the ghost `logged`.
   */
  method ProcessFailures(actionOf: ActionLookup, withMessage: Joiner, failures: seq<ValidationFailure>, vmiCrName: NamespacedName)
    returns (warnMessage: string, errorMessage: string, ghost logged: seq<ValidationFailure>)
    ensures warnMessage == WarnMessage(actionOf, withMessage, failures)
    ensures errorMessage == ErrorMessage(actionOf, withMessage, failures)
    ensures logged == Bucket(actionOf, failures, Log)
  {
    warnMessage, errorMessage := "", "";
    logged := [];
    var i := 0;
    while i < |failures|
      invariant 0 <= i <= |failures|
      invariant Accumulate(actionOf, withMessage, Empty, failures) ==
        Accumulate(actionOf, withMessage, Accumulated(warnMessage, errorMessage), failures[i..])
      invariant logged == Bucket(actionOf, failures[..i], Log)
      decreases |failures| - i
    {
      var failure := failures[i];
      match actionOf(failure.id) {
        case Log =>
          logged := logged + [failure];
        case Warn =>
          warnMessage := withMessage(warnMessage, failure.message);
        case Block =>
          errorMessage := withMessage(errorMessage, failure.message);
      }
      BucketSnoc(actionOf, failures[..i], failure, Log);
      assert failures[..i + 1] == failures[..i] + [failure];
      assert failures[i..] == [failure] + failures[i + 1..];
      i := i + 1;
    }
    assert failures[i..] == [];
    assert failures[..i] == failures;
    ProcessFailuresIsBucketFold(actionOf, withMessage, failures);
  }

  lemma {:induction false} BucketConcat(actionOf: ActionLookup, xs: seq<ValidationFailure>, ys: seq<ValidationFailure>, a: Action)
    ensures Bucket(actionOf, xs + ys, a) == Bucket(actionOf, xs, a) + Bucket(actionOf, ys, a)
    decreases |xs|
  {
    if xs != [] {
      assert (xs + ys)[1..] == xs[1..] + ys;
      BucketConcat(actionOf, xs[1..], ys, a);
    } else {
      assert xs + ys == ys;
    }
  }

  lemma BucketSnoc(actionOf: ActionLookup, xs: seq<ValidationFailure>, f: ValidationFailure, a: Action)
    ensures Bucket(actionOf, xs + [f], a) == Bucket(actionOf, xs, a) + (if actionOf(f.id) == a then [f] else [])
  {
    BucketConcat(actionOf, xs, [f], a);
  }

  /** Running the loop over `xs + ys` is running it over `xs`, then over `ys` from where it stopped. */
  lemma {:induction false} AccumulateConcat(actionOf: ActionLookup, withMessage: Joiner, acc: Accumulated,
                                            xs: seq<ValidationFailure>, ys: seq<ValidationFailure>)
    ensures Accumulate(actionOf, withMessage, acc, xs + ys) ==
      Accumulate(actionOf, withMessage, Accumulate(actionOf, withMessage, acc, xs), ys)
    decreases |xs|
  {
    if xs == [] {
      assert xs + ys == ys;
    } else {
      assert (xs + ys)[0] == xs[0];
      assert (xs + ys)[1..] == xs[1..] + ys;
      AccumulateConcat(actionOf, withMessage, Step(actionOf, withMessage, acc, xs[0]), xs[1..], ys);
    }
  }

  /**
   * A log-tier failure (by the catalog, every identifier without an entry) is
   * invisible in both messages: inserting it anywhere changes neither.
   */
  lemma LogFailureIsInvisible(actionOf: ActionLookup, withMessage: Joiner, acc: Accumulated,
                              xs: seq<ValidationFailure>, f: ValidationFailure, ys: seq<ValidationFailure>)
    requires actionOf(f.id) == Log
    ensures Accumulate(actionOf, withMessage, acc, xs + [f] + ys) == Accumulate(actionOf, withMessage, acc, xs + ys)
  {
    var mid := Accumulate(actionOf, withMessage, acc, xs);
    AccumulateConcat(actionOf, withMessage, acc, xs + [f], ys);
    AccumulateConcat(actionOf, withMessage, acc, xs, [f]);
    assert Accumulate(actionOf, withMessage, mid, [f]) == mid by {
      assert [f][1..] == [];
    }
    AccumulateConcat(actionOf, withMessage, acc, xs, ys);
  }

  /** Every failure lands in exactly one of the three buckets: together they are the input, as a multiset. */
  lemma {:induction false} BucketsPartition(actionOf: ActionLookup, failures: seq<ValidationFailure>)
    ensures multiset(Bucket(actionOf, failures, Log)) + multiset(Bucket(actionOf, failures, Warn))
          + multiset(Bucket(actionOf, failures, Block)) == multiset(failures)
    decreases |failures|
  {
    if failures != [] {
      BucketsPartition(actionOf, failures[1..]);
      assert failures == [failures[0]] + failures[1..];
    }
  }

  /** A joiner that never turns a non-empty accumulator or a non-empty message into "". */
  ghost predicate NonErasing(withMessage: Joiner) {
    forall acc: string, m: string :: acc != "" || m != "" ==> withMessage(acc, m) != ""
  }

  lemma {:induction false} FoldMessagesNonEmpty(withMessage: Joiner, acc: string, messages: seq<string>, k: nat)
    requires NonErasing(withMessage)
    requires acc != "" || (k < |messages| && messages[k] != "")
    ensures FoldMessages(withMessage, acc, messages) != ""
    decreases |messages|
  {
    if messages != [] {
      var next := withMessage(acc, messages[0]);
      if k == 0 || acc != "" {
        assert next != "";
        FoldMessagesNonEmpty(withMessage, next, messages[1..], 0);
      } else {
        FoldMessagesNonEmpty(withMessage, next, messages[1..], k - 1);
      }
    }
  }

  /** With no block-tier failure the error accumulator stays "". */
  lemma {:induction false} NoBlockNoError(actionOf: ActionLookup, withMessage: Joiner, failures: seq<ValidationFailure>)
    requires forall i :: 0 <= i < |failures| ==> actionOf(failures[i].id) != Block
    ensures ErrorMessage(actionOf, withMessage, failures) == ""
  {
    EmptyBucket(actionOf, failures, Block);
  }

  /** With no warn-tier failure the warn accumulator stays "". */
  lemma {:induction false} NoWarnNoWarning(actionOf: ActionLookup, withMessage: Joiner, failures: seq<ValidationFailure>)
    requires forall i :: 0 <= i < |failures| ==> actionOf(failures[i].id) != Warn
    ensures WarnMessage(actionOf, withMessage, failures) == ""
  {
    EmptyBucket(actionOf, failures, Warn);
  }

  lemma {:induction false} EmptyBucket(actionOf: ActionLookup, failures: seq<ValidationFailure>, a: Action)
    requires forall i :: 0 <= i < |failures| ==> actionOf(failures[i].id) != a
    ensures Bucket(actionOf, failures, a) == []
    decreases |failures|
  {
    if failures != [] {
      EmptyBucket(actionOf, failures[1..], a);
    }
  }

  lemma {:induction false} InBucket(actionOf: ActionLookup, failures: seq<ValidationFailure>, i: nat, a: Action)
    requires i < |failures| && actionOf(failures[i].id) == a
    ensures exists j :: 0 <= j < |Bucket(actionOf, failures, a)| && Bucket(actionOf, failures, a)[j] == failures[i]
    decreases i
  {
    if i > 0 {
      InBucket(actionOf, failures[1..], i - 1, a);
      var j :| 0 <= j < |Bucket(actionOf, failures[1..], a)| && Bucket(actionOf, failures[1..], a)[j] == failures[i];
      if actionOf(failures[0].id) == a {
        assert Bucket(actionOf, failures, a)[j + 1] == failures[i];
      } else {
        assert Bucket(actionOf, failures, a)[j] == failures[i];
      }
    } else {
      assert Bucket(actionOf, failures, a)[0] == failures[0];
    }
  }

  /** With a joiner that erases nothing, one block-tier failure with a non-empty text makes the error accumulator non-empty. */
  lemma BlockMakesError(actionOf: ActionLookup, withMessage: Joiner, failures: seq<ValidationFailure>, i: nat)
    requires NonErasing(withMessage)
    requires i < |failures| && actionOf(failures[i].id) == Block && failures[i].message != ""
    ensures ErrorMessage(actionOf, withMessage, failures) != ""
  {
    InBucket(actionOf, failures, i, Block);
    var j :| 0 <= j < |Bucket(actionOf, failures, Block)| && Bucket(actionOf, failures, Block)[j] == failures[i];
    FoldMessagesNonEmpty(withMessage, "", MessagesOf(Bucket(actionOf, failures, Block)), j);
  }

  /** The same for a warn-tier failure and the warn accumulator. */
  lemma WarnMakesWarning(actionOf: ActionLookup, withMessage: Joiner, failures: seq<ValidationFailure>, i: nat)
    requires NonErasing(withMessage)
    requires i < |failures| && actionOf(failures[i].id) == Warn && failures[i].message != ""
    ensures WarnMessage(actionOf, withMessage, failures) != ""
  {
    InBucket(actionOf, failures, i, Warn);
    var j :| 0 <= j < |Bucket(actionOf, failures, Warn)| && Bucket(actionOf, failures, Warn)[j] == failures[i];
    FoldMessagesNonEmpty(withMessage, "", MessagesOf(Bucket(actionOf, failures, Warn)), j);
  }

  /**
   * Order is kept across appended runs: the messages of `xs + ys` are those of
   * `xs`, continued by the fold over the same-tier messages of `ys`.
   */
  lemma MessagesOfConcatenation(actionOf: ActionLookup, withMessage: Joiner,
                                xs: seq<ValidationFailure>, ys: seq<ValidationFailure>)
    ensures ErrorMessage(actionOf, withMessage, xs + ys) ==
      FoldMessages(withMessage, ErrorMessage(actionOf, withMessage, xs), MessagesOf(Bucket(actionOf, ys, Block)))
    ensures WarnMessage(actionOf, withMessage, xs + ys) ==
      FoldMessages(withMessage, WarnMessage(actionOf, withMessage, xs), MessagesOf(Bucket(actionOf, ys, Warn)))
  {
    AccumulateConcat(actionOf, withMessage, Empty, xs, ys);
    ProcessFailuresIsBucketFold(actionOf, withMessage, xs + ys);
    ProcessFailuresIsBucketFold(actionOf, withMessage, xs);
    AccumulateIsBucketFold(actionOf, withMessage, Accumulate(actionOf, withMessage, Empty, xs), ys);
  }
}
