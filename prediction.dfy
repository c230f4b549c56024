/**
 * The prediction entry point: arithmetic input goes to a restricted
 * evaluator, anything else to the trained classifier, and every failure is
 * turned into a returned diagnostic string.
 *
 * The evaluator and the classifier are foreign code and appear as oracles:
 * `eval` receives the text exactly as it would be handed to Python's `eval`,
 * and the classifier is whatever loading the persisted artifact produced.
 */
module Prediction {
  import opened Base
  import opened MathFilter

  /**
   * What Python's `eval` does with the rewritten text: it yields a value or
   * raises an exception (given by its message). A value is given by what
   * `str` makes of it: its text, or the message of the exception `str` raises
   * (an int too long to convert, for one).
   */
  datatype EvalResult = Value(shown: Result<string>) | Raised(message: string)

  /** A loaded classifier: cleaned text to a predicted label, or an exception message. */
  type Classifier = string -> Result<string>

  /** Prefix of the text `safe_eval_math` returns when evaluation raises. */
  const MathErrorPrefix: string := "\U{274C} Ekspresi matematika tidak valid: "

  /** Prefix of the text `predict_input` returns when anything inside its `try` raises. */
  const UntrainedPrefix: string := "Model belum dilatih: "

  /**
   * `safe_eval_math`: the evaluator is handed the `^`-free rewrite of the
   * expression. It never raises: an evaluation exception becomes a string
   * value carrying the invalid-expression message, which cannot be mistaken
   * for the untrained diagnostic; a value is passed on unchanged.
   */
  function SafeEvalMath(expr: string, eval: string -> EvalResult): (r: EvalResult)
    ensures r.Value?
    ensures eval(PowerRewrite(expr)).Value? ==> r == eval(PowerRewrite(expr))
    ensures eval(PowerRewrite(expr)).Raised? ==>
              r.shown.Success? && StartsWith(r.shown.value, MathErrorPrefix)
              && r.shown.value[|MathErrorPrefix|..] == eval(PowerRewrite(expr)).message
              && !StartsWith(r.shown.value, UntrainedPrefix)
  {
    match eval(PowerRewrite(expr))
    case Value(shown) => Value(shown)
    case Raised(message) =>
      var text := MathErrorPrefix + message;
      assert text[..|MathErrorPrefix|] == MathErrorPrefix;
      assert text[|MathErrorPrefix|..] == message;
      assert text[0] != UntrainedPrefix[0];
      Value(Success(text))
  }

  /**
   * For text without `*`, the `^`-free text the evaluator receives is the
   * very text the filter judged once its own normalisation is applied.
   */
  lemma EvaluatorSeesFilteredText(expr: string)
    requires '*' !in expr
    ensures '^' !in PowerRewrite(expr)
    ensures Normalise(PowerRewrite(expr)) == Normalise(expr)
  {
    PowerRewriteLeavesNoCaret(expr);
    NormaliseUndoesPowerRewrite(expr);
    NormaliseWithoutStar(expr);
  }

  /**
   * `predict_input`: `loaded` is the outcome of opening and unpickling the
   * model file, and `clean` is the text-cleaning transform. Nothing is
   * raised: an evaluation error gives the invalid-expression message, and
   * every other failure, on either path, the untrained diagnostic.
   */
  function PredictInput(input: string, cc: CharClasses, clean: string -> string,
                        eval: string -> EvalResult, loaded: Result<Classifier>): (r: string)
    ensures IsMathExpression(cc, input) && eval(PowerRewrite(input)).Raised? ==>
              StartsWith(r, MathErrorPrefix)
    ensures IsMathExpression(cc, input) && eval(PowerRewrite(input)).Value? ==>
              r == match eval(PowerRewrite(input)).shown
                   case Success(text) => text
                   case Failure(e) => UntrainedPrefix + e
    ensures !IsMathExpression(cc, input) ==>
              (loaded.Success? && loaded.value(clean(input)).Success?
               && r == loaded.value(clean(input)).value)
              || StartsWith(r, UntrainedPrefix)
  {
    if IsMathExpression(cc, input) then
      match SafeEvalMath(input, eval).shown
      case Success(text) => text
      case Failure(e) => UntrainedPrefix + e
    else
      var answer := match loaded
        case Failure(e) => UntrainedPrefix + e
        case Success(classify) =>
          (match classify(clean(input))
           case Success(predicted) => predicted
           case Failure(e) => UntrainedPrefix + e);
      assert !(loaded.Success? && loaded.value(clean(input)).Success?) ==>
               answer[..|UntrainedPrefix|] == UntrainedPrefix;
      answer
  }

  /**
   * Arithmetic input is answered by the evaluator alone: the answer does not
   * depend on the model file, whether or not it exists, nor on the cleaning
   * transform.
   */
  lemma MathPathIgnoresModel(input: string, cc: CharClasses, eval: string -> EvalResult,
                             clean1: string -> string, loaded1: Result<Classifier>,
                             clean2: string -> string, loaded2: Result<Classifier>)
    requires IsMathExpression(cc, input)
    ensures PredictInput(input, cc, clean1, eval, loaded1) == PredictInput(input, cc, clean2, eval, loaded2)
  {
  }

  /**
   * When `str` of the evaluator's value raises, the math path answers with
   * the untrained diagnostic and that exception's message, whatever the
   * model file holds.
   */
  lemma MathRenderFailureIsDiagnostic(input: string, cc: CharClasses, clean: string -> string,
                                      eval: string -> EvalResult, loaded: Result<Classifier>, e: string)
    requires IsMathExpression(cc, input)
    requires eval(PowerRewrite(input)) == Value(Failure(e))
    ensures PredictInput(input, cc, clean, eval, loaded) == UntrainedPrefix + e
  {
  }

  /**
   * On other input the answer is either the label the classifier predicted
   * for the cleaned input, or a diagnostic that starts with the untrained
   * prefix and carries the exception message; nothing is raised.
   */
  lemma ClassifierPathAbsorbsFailures(input: string, cc: CharClasses, clean: string -> string,
                                      eval: string -> EvalResult, loaded: Result<Classifier>)
    requires !IsMathExpression(cc, input)
    ensures var r := PredictInput(input, cc, clean, eval, loaded);
            if loaded.Success? && loaded.value(clean(input)).Success? then
              r == loaded.value(clean(input)).value
            else
              StartsWith(r, UntrainedPrefix)
              && r[|UntrainedPrefix|..] == (if loaded.Failure? then loaded.error
                                            else loaded.value(clean(input)).error)
  {
    var r := PredictInput(input, cc, clean, eval, loaded);
    if !(loaded.Success? && loaded.value(clean(input)).Success?) {
      var e := if loaded.Failure? then loaded.error else loaded.value(clean(input)).error;
      assert r == UntrainedPrefix + e;
      assert (UntrainedPrefix + e)[..|UntrainedPrefix|] == UntrainedPrefix;
      assert (UntrainedPrefix + e)[|UntrainedPrefix|..] == e;
    }
  }

  /**
   * A caller cannot tell a diagnostic from a prediction: a classifier whose
   * label happens to read like the diagnostic gives the same answer as a
   * missing model.
   */
  lemma DiagnosticIndistinguishable(input: string, cc: CharClasses, clean: string -> string,
                                    eval: string -> EvalResult, e: string)
    requires !IsMathExpression(cc, input)
    ensures PredictInput(input, cc, clean, eval, Success(_ => Success(UntrainedPrefix + e)))
            == PredictInput(input, cc, clean, eval, Failure(e))
  {
  }
}
