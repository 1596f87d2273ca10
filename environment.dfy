/** The lexical environment of bin/environment.js: a frame holds a `values` map and
    an optional `enclosing` frame. */
module Environments {
  import opened Wrappers
  import opened Tokens

  /** What the frame operations throw. */
  datatype EnvError =
    | UndefinedVariable(message: string)
      // the source's Undefined-variable error (bin/environment.js:26, 53)
    | NoFrameAtDistance(distance: nat)
      // the TypeError JavaScript raises when `enclosing` runs out before `distance` links

  function UndefinedMessage(text: string): string
  {
    "Undefined variable '" + text + "'."
  }

  // ---------------------------------------------------------------------------
  // The chain of frames as values, innermost first: the specification of the class.

  /** The index of the nearest frame that binds `name`. */
  function Nearest<V>(chain: seq<map<string, V>>, name: string): (r: Option<nat>)
    ensures r.Some? ==> r.value < |chain| && name in chain[r.value]
    ensures r.Some? ==> forall j :: 0 <= j < r.value ==> name !in chain[j]
    ensures r.None? ==> forall j :: 0 <= j < |chain| ==> name !in chain[j]
  {
    if chain == [] then None
    else if name in chain[0] then Some(0)
    else match Nearest(chain[1..], name)
      case None => None
      case Some(i) => Some(i + 1)
  }

  /** `lookup`: the value in the nearest binding frame. */
  function LookupIn<V>(chain: seq<map<string, V>>, name: string): Result<V, EnvError>
  {
    match Nearest(chain, name)
    case None => Failure(UndefinedVariable(UndefinedMessage(name)))
    case Some(i) => Success(chain[i][name])
  }

  /** `assign`: the chain with the nearest binding of `name` overwritten. */
  function AssignIn<V>(chain: seq<map<string, V>>, name: string, value: V): seq<map<string, V>>
  {
    match Nearest(chain, name)
    case None => chain
    case Some(i) => chain[i := chain[i][name := value]]
  }

  /** `lookupAt`: the own binding of the frame `distance` links out (None when that
      frame has none: JavaScript's `undefined`). */
  function LookupAtIn<V>(chain: seq<map<string, V>>, distance: nat, name: string): Result<Option<V>, EnvError>
  {
    if distance < |chain| then Success(if name in chain[distance] then Some(chain[distance][name]) else None)
    else Failure(NoFrameAtDistance(distance))
  }

  /** `assignAt`: the chain with the frame `distance` links out written unconditionally. */
  function AssignAtIn<V>(chain: seq<map<string, V>>, distance: nat, name: string, value: V): seq<map<string, V>>
  {
    if distance < |chain| then chain[distance := chain[distance][name := value]] else chain
  }

  /** The nearest binder is the first frame that binds the name, and only that one. */
  lemma {:induction false} NearestIsFirstBinder<V>(chain: seq<map<string, V>>, name: string, i: nat)
    requires i < |chain| && name in chain[i]
    requires forall j :: 0 <= j < i ==> name !in chain[j]
    ensures Nearest(chain, name) == Some(i)
  {
    if i > 0 {
      NearestIsFirstBinder(chain[1..], name, i - 1);
    }
  }

  /** `assign` never creates or removes a binding, and changes no frame but the
      nearest binder. */
  lemma AssignKeepsShape<V>(chain: seq<map<string, V>>, name: string, value: V)
    ensures |AssignIn(chain, name, value)| == |chain|
    ensures forall i :: 0 <= i < |chain| ==> AssignIn(chain, name, value)[i].Keys == chain[i].Keys
    ensures forall i :: 0 <= i < |chain| && Nearest(chain, name) != Some(i) ==> AssignIn(chain, name, value)[i] == chain[i]
  {
  }

  /** After a successful `assign`, `lookup` returns the assigned value. */
  lemma LookupAfterAssign<V>(chain: seq<map<string, V>>, name: string, value: V)
    requires Nearest(chain, name).Some?
    ensures Nearest(AssignIn(chain, name, value), name) == Nearest(chain, name)
    ensures LookupIn(AssignIn(chain, name, value), name) == Success(value)
  {
    var i := Nearest(chain, name).value;
    var after := AssignIn(chain, name, value);
    AssignKeepsShape(chain, name, value);
    NearestIsFirstBinder(after, name, i);
  }

  /** After `define` in the innermost frame, `lookup` returns the defined value: the
      new binding shadows every outer one. */
  lemma LookupAfterDefine<V>(chain: seq<map<string, V>>, name: string, value: V)
    requires |chain| > 0
    ensures Nearest(chain[0 := chain[0][name := value]], name) == Some(0)
    ensures LookupIn(chain[0 := chain[0][name := value]], name) == Success(value)
  {
  }

  /** At the distance of the nearest binder, `lookupAt` and `assignAt` agree with the
      searching `lookup` and `assign`: a correct resolver distance changes nothing. */
  lemma AtNearestAgreesWithSearch<V>(chain: seq<map<string, V>>, name: string, value: V)
    requires Nearest(chain, name).Some?
    ensures LookupAtIn(chain, Nearest(chain, name).value, name) == Success(Some(LookupIn(chain, name).value))
    ensures AssignAtIn(chain, Nearest(chain, name).value, name, value) == AssignIn(chain, name, value)
  {
  }

  /** At a distance that is not the nearest binder's, `assignAt` still writes, and so
      creates a binding in a frame that may have had none. */
  lemma AssignAtWritesUnconditionally<V>(chain: seq<map<string, V>>, distance: nat, name: string, value: V)
    requires distance < |chain|
    ensures name in AssignAtIn(chain, distance, name, value)[distance]
    ensures LookupAtIn(AssignAtIn(chain, distance, name, value), distance, name) == Success(Some(value))
  {
  }

  /** A name the innermost frame does not bind is searched for further out. */
  lemma NearestBelow<V>(m: map<string, V>, chain: seq<map<string, V>>, name: string)
    requires name !in m
    ensures Nearest([m] + chain, name) == (match Nearest(chain, name) case None => None case Some(i) => Some(i + 1))
    ensures LookupIn([m] + chain, name) == LookupIn(chain, name)
  {
    assert ([m] + chain)[1..] == chain;
  }

  /** ... and assigned further out. */
  lemma AssignInBelow<V>(m: map<string, V>, chain: seq<map<string, V>>, name: string, value: V)
    requires name !in m
    ensures AssignIn([m] + chain, name, value) == [m] + AssignIn(chain, name, value)
  {
    NearestBelow(m, chain, name);
  }

  // ---------------------------------------------------------------------------
  // The mutable frames.

  class Environment<V> {
    var values: map<string, V>
    const enclosing: Environment?<V>
    /** Number of links to the outermost frame. */
    ghost const depth: nat
    /** This frame and all frames it encloses in. */
    ghost const Repr: set<Environment<V>>

    /** The chain is finite and acyclic; it mentions only constant fields, so no
        update of `values` can break it. */
    ghost predicate Valid()
      decreases depth
    {
      this in Repr &&
      (enclosing == null ==> depth == 0 && Repr == {this}) &&
      (enclosing != null ==>
         depth == enclosing.depth + 1 && enclosing.Valid() &&
         this !in enclosing.Repr && Repr == {this} + enclosing.Repr)
    }

    /** The frame objects, innermost first. */
    ghost function Frames(): (fs: seq<Environment<V>>)
      requires Valid()
      ensures |fs| == depth + 1 && fs[0] == this
      ensures forall i :: 0 <= i < |fs| ==> fs[i].Valid() && fs[i] in Repr && fs[i].depth == depth - i
      ensures forall i :: 0 <= i < |fs| - 1 ==> fs[i].enclosing == fs[i + 1]
      ensures fs[|fs| - 1].enclosing == null
      decreases depth
    {
      [this] + (if enclosing == null then [] else enclosing.Frames())
    }

    /** The bindings of every frame, innermost first. */
    ghost function Chain(): (c: seq<map<string, V>>)
      requires Valid()
      reads Repr
      ensures |c| == depth + 1 && c[0] == values
      decreases depth
    {
      [values] + (if enclosing == null then [] else enclosing.Chain())
    }

    /** The chain lists the frame objects' own maps. */
    lemma ChainIsFramesValues()
      requires Valid()
      ensures forall i :: 0 <= i < |Chain()| ==> Chain()[i] == Frames()[i].values
      decreases depth
    {
      if enclosing != null {
        enclosing.ChainIsFramesValues();
      }
    }

    /** `new Environment(enclosing)`: no bindings of its own, the given enclosing frame. */
    constructor(enclosing: Environment?<V>)
      requires enclosing != null ==> enclosing.Valid()
      ensures Valid() && this.enclosing == enclosing && values == map[]
      ensures Chain() == [map[]] + (if enclosing == null then [] else enclosing.Chain())
    {
      values := map[];
      this.enclosing := enclosing;
      depth := if enclosing == null then 0 else enclosing.depth + 1;
      Repr := if enclosing == null then {this} else {this} + enclosing.Repr;
    }

    /** `define`: bind or overwrite in this frame only. */
    method Define(name: string, value: V)
      requires Valid()
      modifies this`values
      ensures Valid()
      ensures values == old(values)[name := value]
      ensures Chain() == old(Chain())[0 := old(values)[name := value]]
    {
      values := values[name := value];
    }

    /** `lookup`: search this frame, then the enclosing ones. */
    function Lookup(name: string): (r: Result<V, EnvError>)
      requires Valid()
      reads Repr
      ensures r == LookupIn(Chain(), name)
      decreases depth
    {
      if name in values then Success(values[name])
      else if enclosing != null then
        NearestBelow(values, enclosing.Chain(), name);
        enclosing.Lookup(name)
      else Failure(UndefinedVariable(UndefinedMessage(name)))
    }

    /** `assign`: overwrite the nearest binding. The thrown message renders the name
        token through `Token.prototype.toString`, as the source's template does. */
    method Assign(name: Token, value: V) returns (r: Result<(), EnvError>)
      requires Valid()
      modifies Repr
      ensures Valid()
      ensures Chain() == AssignIn(old(Chain()), name.lexeme, value)
      ensures r.Failure? <==> Nearest(old(Chain()), name.lexeme).None?
      ensures r.Failure? ==> r.error == UndefinedVariable(UndefinedMessage(ToString(name)))
      decreases depth
    {
      if name.lexeme in values {
        values := values[name.lexeme := value];
        return Success(());
      }
      if enclosing != null {
        ghost var rest := enclosing.Chain();
        r := enclosing.Assign(name, value);
        assert values == old(values);
        AssignInBelow(values, rest, name.lexeme, value);
        return;
      }
      return Failure(UndefinedVariable(UndefinedMessage(ToString(name))));
    }

    /** `lookupAt`: follow exactly `distance` links, then read that frame's own binding. */
    method LookupAt(distance: nat, name: string) returns (r: Result<Option<V>, EnvError>)
      requires Valid()
      ensures r == LookupAtIn(Chain(), distance, name)
    {
      var environment := this;
      var i := 0;
      while i < distance
        invariant 0 <= i <= distance && i <= depth
        invariant environment == Frames()[i]
      {
        if environment.enclosing == null {
          // JavaScript would dereference null on the next step
          return Failure(NoFrameAtDistance(distance));
        }
        environment := environment.enclosing;
        i := i + 1;
      }
      ChainIsFramesValues();
      r := Success(if name in environment.values then Some(environment.values[name]) else None);
    }

    /** `assignAt`: follow exactly `distance` links, then write that frame's binding. */
    method AssignAt(distance: nat, name: Token, value: V) returns (r: Result<(), EnvError>)
      requires Valid()
      modifies Repr
      ensures Valid()
      ensures Chain() == AssignAtIn(old(Chain()), distance, name.lexeme, value)
      ensures r.Failure? <==> distance > depth
    {
      var environment := this;
      var i := 0;
      while i < distance
        invariant 0 <= i <= distance && i <= depth
        invariant environment == Frames()[i]
      {
        if environment.enclosing == null {
          return Failure(NoFrameAtDistance(distance));
        }
        environment := environment.enclosing;
        i := i + 1;
      }
      ChainIsFramesValues();
      ghost var before := Chain();
      environment.values := environment.values[name.lexeme := value];
      ChainIsFramesValues();
      forall j | 0 <= j < |before|
        ensures Chain()[j] == before[distance := before[distance][name.lexeme := value]][j]
      {
        if j != distance {
          assert Frames()[j].depth != Frames()[distance].depth;
        }
      }
      r := Success(());
    }
  }
}
