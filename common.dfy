/** Definitions shared by the ThorImage and ThorSync decoders: the failure-compatible
    result type, the exceptions the decoders raise, the numpy dtypes they name, and
    a left-to-right "map or fail" over a sequence (the shape of the append loops). */
module Common {

  datatype Option<+T> = None | Some(value: T)

  /** The exceptions raised by the decoders, one constructor per cause. */
  datatype Error =
    | FileNotFound(path: string)               // FileNotFoundError from path resolution
    | MissingElement(tag: string)              // doc.find(tag) is None, so `.attrib` fails
    | MissingAttribute(tag: string, key: string) // KeyError on an attribute map (TypeError for `.get`)
    | NotAnInteger(text: string)               // ValueError from int(text)
    | NotAFloat(text: string)                  // ValueError from float(text)
    | UnknownCaptureMode(mode: int)            // ValueError("unknown capture mode")
    | UnknownModality(name: string)            // ValueError("unknown modality")
    | DivisionByZero                           // ZeroDivisionError
    | NoFrame                                  // KeyError 'frame': confocal metadata has no frame
    | UnsupportedChannels(channels: int)       // NotImplementedError for multi-channel frames
    | EmptyShape                               // IndexError on chunks[0] for a 0-d shape
    | UnboundExtraMetadata                     // UnboundLocalError: schema rebuilt while the array exists
    | MissingGroup(name: string)               // KeyError on an HDF5 group or dataset
    | LengthMismatch                           // ValueError: table columns of unequal length

  datatype Result<+T> = Ok(value: T) | Err(error: Error) {
    predicate IsFailure() { Err? }
    function PropagateFailure<U>(): Result<U>
      requires Err?
    {
      Err(error)
    }
    function Extract(): T
      requires Ok?
    {
      value
    }
  }

  /** The numpy dtypes that occur in the decoders; `Native` stands for a dataset's own dtype. */
  datatype DType = UInt16LE | Int8 | Int32 | Float64 | Native(name: string, size: nat)

  function ItemSize(d: DType): (n: nat)
    ensures d == UInt16LE ==> n == 2
  {
    match d
    case UInt16LE => 2
    case Int8 => 1
    case Int32 => 4
    case Float64 => 8
    case Native(_, size) => size
  }

  /** Applies `f` to each element from left to right, stopping at the first failure —
      what a Python loop that appends `f(x)` for each `x` does when `f` may raise. */
  function MapAll<A, B>(f: A -> Result<B>, xs: seq<A>): Result<seq<B>>
    decreases |xs|
  {
    if |xs| == 0 then Ok([])
    else
      var init :- MapAll(f, xs[..|xs| - 1]);
      var last :- f(xs[|xs| - 1]);
      Ok(init + [last])
  }

  /** MapAll succeeds exactly when every element succeeds, and then its result has one
      entry per element, in order. */
  lemma {:induction false} MapAllOk<A, B>(f: A -> Result<B>, xs: seq<A>)
    ensures MapAll(f, xs).Ok? <==> forall i :: 0 <= i < |xs| ==> f(xs[i]).Ok?
    ensures MapAll(f, xs).Ok? ==>
              |MapAll(f, xs).value| == |xs| &&
              forall i :: 0 <= i < |xs| ==> f(xs[i]) == Ok(MapAll(f, xs).value[i])
    decreases |xs|
  {
    if |xs| > 0 {
      var init := xs[..|xs| - 1];
      MapAllOk(f, init);
      assert forall i :: 0 <= i < |init| ==> init[i] == xs[i];
      if MapAll(f, init).Ok? && f(xs[|xs| - 1]).Ok? {
        var r := MapAll(f, xs).value;
        assert r == MapAll(f, init).value + [f(xs[|xs| - 1]).value];
      }
    }
  }

  /** A failing MapAll reports the error of the FIRST failing element. */
  lemma {:induction false} MapAllFirstError<A, B>(f: A -> Result<B>, xs: seq<A>)
    requires MapAll(f, xs).Err?
    ensures exists k :: 0 <= k < |xs| && f(xs[k]) == Err(MapAll(f, xs).error) &&
                        forall i :: 0 <= i < k ==> f(xs[i]).Ok?
    decreases |xs|
  {
    var init := xs[..|xs| - 1];
    assert forall i :: 0 <= i < |init| ==> init[i] == xs[i];
    if MapAll(f, init).Err? {
      MapAllFirstError(f, init);
      var k :| 0 <= k < |init| && f(init[k]) == Err(MapAll(f, init).error) &&
               forall i :: 0 <= i < k ==> f(init[i]).Ok?;
      assert f(xs[k]) == Err(MapAll(f, xs).error);
    } else {
      MapAllOk(f, init);
      var k := |xs| - 1;
      assert f(xs[k]) == Err(MapAll(f, xs).error);
    }
  }

  /** Once a prefix fails, the whole sequence fails with the same error: a loop may
      stop at the first failure. */
  lemma {:induction false} MapAllPrefixError<A, B>(f: A -> Result<B>, xs: seq<A>, k: nat)
    requires k <= |xs| && MapAll(f, xs[..k]).Err?
    ensures MapAll(f, xs) == MapAll(f, xs[..k])
    decreases |xs| - k
  {
    if k < |xs| {
      assert xs[..k + 1][..k] == xs[..k];
      assert MapAll(f, xs[..k + 1]) == MapAll(f, xs[..k]);
      MapAllPrefixError(f, xs, k + 1);
    } else {
      assert xs[..k] == xs;
    }
  }

  /** One more successful step extends a successful prefix by one entry. */
  lemma MapAllStep<A, B>(f: A -> Result<B>, xs: seq<A>, k: nat)
    requires k < |xs|
    ensures MapAll(f, xs[..k + 1]) ==
            (match MapAll(f, xs[..k])
             case Err(e) => Err(e)
             case Ok(init) =>
               match f(xs[k])
               case Err(e) => Err(e)
               case Ok(y) => Ok(init + [y]))
  {
    assert xs[..k + 1][..k] == xs[..k];
  }
}
