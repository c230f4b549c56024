/**
 * The local trainer: an append-only log of (input, output) examples kept in a
 * line-per-record file, and a classifier artifact refit from the whole log on
 * every new example.
 */
module ExampleStore {
  import opened Base
  import opened MathFilter
  import opened Prediction

  /** One training example, as one record of the data file. */
  datatype Example = Example(input: string, output: string)

  /** The two parallel sequences a classifier is fit on: cleaned inputs and labels. */
  datatype Corpus = Corpus(inputs: seq<string>, labels: seq<string>)

  /**
   * The persisted classifier artifact. Fitting itself is foreign code; what the
   * model keeps of an artifact is the corpus it was fit on.
   */
  datatype Artifact = Artifact(fittedOn: Corpus)

  /** The cleaned inputs of a log, record by record. */
  function CleanedInputs(clean: string -> string, log: seq<Example>): (xs: seq<string>)
    ensures |xs| == |log|
    ensures forall i :: 0 <= i < |log| ==> xs[i] == clean(log[i].input)
  {
    if log == [] then [] else [clean(log[0].input)] + CleanedInputs(clean, log[1..])
  }

  /** The outputs of a log, record by record, verbatim. */
  function Outputs(log: seq<Example>): (ys: seq<string>)
    ensures |ys| == |log|
    ensures forall i :: 0 <= i < |log| ==> ys[i] == log[i].output
  {
    if log == [] then [] else [log[0].output] + Outputs(log[1..])
  }

  /** The corpus that loading a log yields. */
  function CorpusOf(clean: string -> string, log: seq<Example>): Corpus
  {
    Corpus(CleanedInputs(clean, log), Outputs(log))
  }

  /**
   * Appending one record extends the corpus by that record alone, at the end:
   * the earlier part of the corpus is exactly the corpus of the earlier log.
   */
  lemma {:induction false} CorpusOfAppend(clean: string -> string, log: seq<Example>, e: Example)
    ensures CleanedInputs(clean, log + [e]) == CleanedInputs(clean, log) + [clean(e.input)]
    ensures Outputs(log + [e]) == Outputs(log) + [e.output]
  {
    if log != [] {
      assert (log + [e])[1..] == log[1..] + [e];
      CorpusOfAppend(clean, log[1..], e);
    }
  }

  /** What `str` gives for the FileNotFoundError of opening a missing model file. */
  const MissingModelMessage: string := "[Errno 2] No such file or directory: 'models/model.pkl'"

  /**
   * Opening and unpickling the model file: a missing file raises
   * FileNotFoundError; an existing one is handed to the unpickler.
   */
  function LoadModel(artifact: Option<Artifact>, open: Artifact -> Result<Classifier>): (loaded: Result<Classifier>)
    ensures artifact.None? ==> loaded == Failure(MissingModelMessage)
    ensures artifact.Some? ==> loaded == open(artifact.value)
  {
    match artifact
    case None => Failure(MissingModelMessage)
    case Some(a) => open(a)
  }

  class Trainer {
    /** The text-cleaning transform, the same one for training and prediction. */
    const clean: string -> string
    /** Records of the data file, in append order. */
    var log: seq<Example>
    /** Whether the data file exists. */
    var logExists: bool
    /** The model file, if one has been written. */
    var artifact: Option<Artifact>

    /** A data file that does not exist holds no records. */
    ghost predicate Valid()
      reads this
    {
      !logExists ==> log == []
    }

    /** A fresh installation: no data file and no model file. */
    constructor (clean: string -> string)
      ensures Valid()
      ensures this.clean == clean
      ensures log == [] && !logExists && artifact == None
    {
      this.clean := clean;
      log := [];
      logExists := false;
      artifact := None;
    }

    /**
     * `save_training_data`: creates the data file if needed and appends one
     * record; earlier records and the model file are untouched.
     */
    method Save(input: string, output: string)
      requires Valid()
      modifies this
      ensures Valid()
      ensures logExists
      ensures log == old(log) + [Example(input, output)]
      ensures artifact == old(artifact)
    {
      logExists := true;
      log := log + [Example(input, output)];
    }

    /**
     * `load_training_data`: no data file gives two empty sequences; otherwise
     * one cleaned input and one verbatim output per record, in file order.
     */
    method Load() returns (xs: seq<string>, ys: seq<string>)
      ensures !logExists ==> xs == [] && ys == []
      ensures logExists ==> |xs| == |log| && |ys| == |log|
      ensures logExists ==> forall i :: 0 <= i < |log| ==>
                xs[i] == clean(log[i].input) && ys[i] == log[i].output
    {
      if !logExists {
        return [], [];
      }
      xs, ys := [], [];
      for i := 0 to |log|
        invariant |xs| == i && |ys| == i
        invariant forall k :: 0 <= k < i ==> xs[k] == clean(log[k].input) && ys[k] == log[k].output
      {
        xs := xs + [clean(log[i].input)];
        ys := ys + [log[i].output];
      }
    }

    /**
     * `train_model`: saves the example, reloads the whole log and hands the
     * corpus to `fit`, the foreign fitting and pickling step. If fitting
     * raises, the exception propagates: the example stays in the log and the
     * previous model file stays.
     */
    method Train(input: string, output: string, fit: Corpus -> Outcome) returns (result: Outcome)
      requires Valid()
      modifies this
      ensures Valid()
      ensures logExists
      ensures log == old(log) + [Example(input, output)]
      ensures result == fit(Corpus(CleanedInputs(clean, old(log)) + [clean(input)],
                                   Outputs(old(log)) + [output]))
      ensures artifact == if result.Pass? then Some(Artifact(CorpusOf(clean, log)))
                          else old(artifact)
    {
      Save(input, output);
      var xs, ys := Load();
      assert xs == CleanedInputs(clean, log) && ys == Outputs(log);
      CorpusOfAppend(clean, old(log), Example(input, output));
      result := fit(Corpus(xs, ys));
      if result.Pass? {
        artifact := Some(Artifact(Corpus(xs, ys)));
      }
    }

    /**
     * `predict_input` against the current model file. `open` is the foreign
     * unpickling step on an existing file: it gives the classifier stored
     * there or the message of the exception raised while loading it.
     */
    method Predict(input: string, cc: CharClasses, eval: string -> EvalResult,
                   open: Artifact -> Result<Classifier>) returns (answer: string)
      ensures answer == PredictInput(input, cc, clean, eval, LoadModel(artifact, open))
      ensures artifact.None? && !IsMathExpression(cc, input) ==>
                answer == UntrainedPrefix + MissingModelMessage
      ensures IsMathExpression(cc, input) ==>
                forall loaded :: answer == PredictInput(input, cc, clean, eval, loaded)
    {
      answer := PredictInput(input, cc, clean, eval, LoadModel(artifact, open));
      forall loaded | IsMathExpression(cc, input)
        ensures answer == PredictInput(input, cc, clean, eval, loaded)
      {
        MathPathIgnoresModel(input, cc, eval, clean, LoadModel(artifact, open), clean, loaded);
      }
    }
  }

  /**
   * Training twice from a fresh installation leaves both examples in the log
   * in call order, and a successful second fit saw both.
   */
  method TrainTwice(clean: string -> string, fit: Corpus -> Outcome, a: Example, b: Example)
    returns (t: Trainer)
    ensures t.log == [a, b]
    ensures fit(CorpusOf(clean, [a, b])).Pass? ==> t.artifact == Some(Artifact(CorpusOf(clean, [a, b])))
  {
    t := new Trainer(clean);
    var _ := t.Train(a.input, a.output, fit);
    var r := t.Train(b.input, b.output, fit);
    assert t.log == [a] + [b];
    CorpusOfAppend(clean, [a], b);
  }
}
