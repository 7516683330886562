/** mug2vec's parameter validation: every constructor parameter except
    `pass_to_ranks` must be None or a positive int, checked in the order
    `get_params()` lists them, the first offender raising a ValueError. `fit`
    runs this check before any of the embedding pipeline, which enters as the
    oracle `Pipeline`. */
module Embed {
  import opened PyValues

  /** One entry of the `get_params()` dictionary. */
  datatype Param = Param(name: string, value: PyValue)

  /** The outcome of `_check_inputs`: returns normally, or raises ValueError
      with the given message. */
  datatype Outcome = Pass | Fail(message: string)

  datatype Result<+T> = Ok(value: T) | ValueError(message: string)

  /** An adjacency matrix. */
  type Graph = seq<seq<real>>

  /** What the omnibus embedding and classical MDS produce: the number of
      singular values kept by omnibus, and the embedding matrix with its
      number of columns (`embeddings_.shape[-1]`). */
  datatype Embedding = Embedding(omnibusNComponents: nat, embeddings: seq<seq<real>>, nColumns: nat)

  /** pass_to_ranks, OmnibusEmbed and ClassicalMDS run on the graphs with the
      estimator's parameters. */
  datatype Pipeline = Pipeline(run: (seq<Graph>, seq<Param>) -> Embedding)

  const PassToRanksKey: string := "pass_to_ranks"

  /** What one loop iteration accepts: None, or an int (bools included) > 0. */
  predicate Acceptable(v: PyValue)
  {
    v.PyNone? || (AsInt(v).Some? && AsInt(v).value > 0)
  }

  /** The message raised for an unacceptable parameter. */
  function ErrorMessage(p: Param): string
  {
    if AsInt(p.value).None? then p.name + " must be an int or None." else p.name + " must be > 0."
  }

  /** `variables.pop(key)`: the dictionary without the entry for key. */
  function Pop(params: seq<Param>, key: string): seq<Param>
  {
    if params == [] then []
    else if params[0].name == key then Pop(params[1..], key)
    else [params[0]] + Pop(params[1..], key)
  }

  /** The result of walking the parameters in order and raising on the first
      unacceptable one. */
  function Check(variables: seq<Param>): Outcome
  {
    if variables == [] then Pass
    else if !Acceptable(variables[0].value) then Fail(ErrorMessage(variables[0]))
    else Check(variables[1..])
  }

  /** The check passes exactly when every parameter is None or a positive int. */
  lemma {:induction false} CheckPassesIffAllAcceptable(variables: seq<Param>)
    ensures Check(variables) == Pass <==> forall i :: 0 <= i < |variables| ==> Acceptable(variables[i].value)
  {
    if variables != [] {
      CheckPassesIffAllAcceptable(variables[1..]);
      assert forall i :: 1 <= i < |variables| ==> variables[i].value == variables[1..][i - 1].value;
    }
  }

  /** The first unacceptable parameter decides the error: its name and kind
      give the message, whatever the parameters after it hold. */
  lemma {:induction false} CheckFailsOnFirstOffender(variables: seq<Param>, k: nat)
    requires k < |variables|
    requires !Acceptable(variables[k].value)
    requires forall j :: 0 <= j < k ==> Acceptable(variables[j].value)
    ensures Check(variables) == Fail(ErrorMessage(variables[k]))
  {
    if k > 0 {
      assert Acceptable(variables[0].value);
      CheckFailsOnFirstOffender(variables[1..], k - 1);
    }
  }

  /** Every failure names an actual first offender. */
  lemma {:induction false} CheckFailureHasOffender(variables: seq<Param>)
    requires Check(variables).Fail?
    ensures exists k :: (0 <= k < |variables| && !Acceptable(variables[k].value) &&
      (forall j :: 0 <= j < k ==> Acceptable(variables[j].value)) &&
      Check(variables).message == ErrorMessage(variables[k]))
  {
    if Acceptable(variables[0].value) {
      CheckFailureHasOffender(variables[1..]);
      var k :| 0 <= k < |variables[1..]| && !Acceptable(variables[1..][k].value) &&
        (forall j :: 0 <= j < k ==> Acceptable(variables[1..][j].value)) &&
        Check(variables[1..]).message == ErrorMessage(variables[1..][k]);
      assert variables[k + 1] == variables[1..][k];
      forall j | 0 <= j < k + 1
        ensures Acceptable(variables[j].value)
      {
        if j > 0 {
          assert variables[j] == variables[1..][j - 1];
        }
      }
    } else {
      assert !Acceptable(variables[0].value);
    }
  }

  /** After the pop no entry carries the key, and every other entry is kept. */
  lemma {:induction false} PopRemovesKey(params: seq<Param>, key: string)
    ensures |Pop(params, key)| <= |params|
    ensures forall p :: p in Pop(params, key) <==> p in params && p.name != key
  {
    if params != [] {
      PopRemovesKey(params[1..], key);
      assert params == [params[0]] + params[1..];
    }
  }

  /** Popping a key does not depend on the value stored under it. */
  lemma {:induction false} PopIgnoresValue(params: seq<Param>, key: string, i: nat, v: PyValue)
    requires i < |params| && params[i].name == key
    ensures Pop(params[i := Param(key, v)], key) == Pop(params, key)
  {
    if i > 0 {
      assert params[i := Param(key, v)][1..] == params[1..][i - 1 := Param(key, v)];
      PopIgnoresValue(params[1..], key, i - 1, v);
    }
  }

  /** The parameter list `get_params()` returns (sklearn lists the
      constructor's parameters sorted by name). */
  function ParamList(passToRanks: PyValue, omnibusComponents: PyValue, omnibusNElbows: PyValue,
                     cmdsComponents: PyValue, cmdsNElbows: PyValue, svdSeed: PyValue): seq<Param>
  {
    [ Param("cmds_components", cmdsComponents),
      Param("cmds_n_elbows", cmdsNElbows),
      Param("omnibus_components", omnibusComponents),
      Param("omnibus_n_elbows", omnibusNElbows),
      Param(PassToRanksKey, passToRanks),
      Param("svd_seed", svdSeed) ]
  }

  /** The parameters `_check_inputs` walks, in order: all but `pass_to_ranks`. */
  lemma CheckedVariables(passToRanks: PyValue, omnibusComponents: PyValue, omnibusNElbows: PyValue,
                         cmdsComponents: PyValue, cmdsNElbows: PyValue, svdSeed: PyValue)
    ensures Pop(ParamList(passToRanks, omnibusComponents, omnibusNElbows, cmdsComponents, cmdsNElbows, svdSeed), PassToRanksKey)
         == [ Param("cmds_components", cmdsComponents),
              Param("cmds_n_elbows", cmdsNElbows),
              Param("omnibus_components", omnibusComponents),
              Param("omnibus_n_elbows", omnibusNElbows),
              Param("svd_seed", svdSeed) ]
  {
    var ps := ParamList(passToRanks, omnibusComponents, omnibusNElbows, cmdsComponents, cmdsNElbows, svdSeed);
    // the other names differ from the key in their first character
    assert forall j :: 0 <= j < 6 && j != 4 ==> ps[j].name[0] != PassToRanksKey[0];
    assert ps[5..][1..] == [];
    assert Pop(ps[5..], PassToRanksKey) == [ps[5]];
    assert ps[4..][1..] == ps[5..];
    assert Pop(ps[4..], PassToRanksKey) == [ps[5]];
    assert ps[3..][1..] == ps[4..];
    assert Pop(ps[3..], PassToRanksKey) == [ps[3], ps[5]];
    assert ps[2..][1..] == ps[3..];
    assert Pop(ps[2..], PassToRanksKey) == [ps[2], ps[3], ps[5]];
    assert ps[1..][1..] == ps[2..];
    assert Pop(ps[1..], PassToRanksKey) == [ps[1], ps[2], ps[3], ps[5]];
  }

  /** Whatever `pass_to_ranks` holds, the check of the other parameters comes
      out the same. */
  lemma PassToRanksNotChecked(passToRanks: PyValue, other: PyValue, omnibusComponents: PyValue, omnibusNElbows: PyValue,
                              cmdsComponents: PyValue, cmdsNElbows: PyValue, svdSeed: PyValue)
    ensures Check(Pop(ParamList(passToRanks, omnibusComponents, omnibusNElbows, cmdsComponents, cmdsNElbows, svdSeed), PassToRanksKey))
         == Check(Pop(ParamList(other, omnibusComponents, omnibusNElbows, cmdsComponents, cmdsNElbows, svdSeed), PassToRanksKey))
  {
    var ps := ParamList(passToRanks, omnibusComponents, omnibusNElbows, cmdsComponents, cmdsNElbows, svdSeed);
    assert ParamList(other, omnibusComponents, omnibusNElbows, cmdsComponents, cmdsNElbows, svdSeed) == ps[4 := Param(PassToRanksKey, other)];
    PopIgnoresValue(ps, PassToRanksKey, 4, other);
  }

  /** The default settings pass, whatever `pass_to_ranks` holds. */
  lemma DefaultsPass(passToRanks: PyValue)
    ensures Check(Pop(ParamList(passToRanks, PyNone, PyInt(2), PyNone, PyInt(2), PyNone), PassToRanksKey)) == Pass
  {
    CheckedVariables(passToRanks, PyNone, PyInt(2), PyNone, PyInt(2), PyNone);
    CheckPassesIffAllAcceptable(Pop(ParamList(passToRanks, PyNone, PyInt(2), PyNone, PyInt(2), PyNone), PassToRanksKey));
  }

  /** `True` is accepted anywhere, since a bool is an int and True is 1. */
  lemma TrueAccepted(passToRanks: PyValue)
    ensures Check(Pop(ParamList(passToRanks, PyBool(true), PyBool(true), PyBool(true), PyBool(true), PyBool(true)), PassToRanksKey)) == Pass
  {
    CheckedVariables(passToRanks, PyBool(true), PyBool(true), PyBool(true), PyBool(true), PyBool(true));
    CheckPassesIffAllAcceptable(Pop(ParamList(passToRanks, PyBool(true), PyBool(true), PyBool(true), PyBool(true), PyBool(true)), PassToRanksKey));
  }

  /** `svd_seed = 0` is rejected as not > 0 when the other parameters pass. */
  lemma ZeroSeedRejected(passToRanks: PyValue, omnibusComponents: PyValue, omnibusNElbows: PyValue,
                         cmdsComponents: PyValue, cmdsNElbows: PyValue)
    requires Acceptable(omnibusComponents) && Acceptable(omnibusNElbows)
    requires Acceptable(cmdsComponents) && Acceptable(cmdsNElbows)
    ensures Check(Pop(ParamList(passToRanks, omnibusComponents, omnibusNElbows, cmdsComponents, cmdsNElbows, PyInt(0)), PassToRanksKey))
         == Fail("svd_seed must be > 0.")
  {
    CheckedVariables(passToRanks, omnibusComponents, omnibusNElbows, cmdsComponents, cmdsNElbows, PyInt(0));
    var vs := Pop(ParamList(passToRanks, omnibusComponents, omnibusNElbows, cmdsComponents, cmdsNElbows, PyInt(0)), PassToRanksKey);
    assert vs[4] == Param("svd_seed", PyInt(0));
    assert ErrorMessage(vs[4]) == "svd_seed must be > 0.";
    CheckFailsOnFirstOffender(vs, 4);
  }

  /** A non-int `cmds_components`, first in order, is reported whatever the
      later parameters hold. */
  lemma NonIntCmdsComponentsRejected(passToRanks: PyValue, omnibusComponents: PyValue, omnibusNElbows: PyValue,
                                     typeName: string, cmdsNElbows: PyValue, svdSeed: PyValue)
    ensures Check(Pop(ParamList(passToRanks, omnibusComponents, omnibusNElbows, PyOther(typeName), cmdsNElbows, svdSeed), PassToRanksKey))
         == Fail("cmds_components must be an int or None.")
  {
    CheckedVariables(passToRanks, omnibusComponents, omnibusNElbows, PyOther(typeName), cmdsNElbows, svdSeed);
    var vs := Pop(ParamList(passToRanks, omnibusComponents, omnibusNElbows, PyOther(typeName), cmdsNElbows, svdSeed), PassToRanksKey);
    assert vs[0] == Param("cmds_components", PyOther(typeName));
    assert !Acceptable(vs[0].value);
    assert ErrorMessage(vs[0]) == "cmds_components must be an int or None.";
    assert Check(vs) == Fail(ErrorMessage(vs[0]));
  }

  class Mug2Vec {
    var passToRanks: PyValue
    var omnibusComponents: PyValue
    var omnibusNElbows: PyValue
    var cmdsComponents: PyValue
    var cmdsNElbows: PyValue
    var svdSeed: PyValue

    // attributes set by a successful fit: omnibus_n_components_, embeddings_, cmds_components_
    var fittedOmnibusNComponents: Attr<nat>
    var fittedEmbeddings: Attr<seq<seq<real>>>
    var fittedCmdsComponents: Attr<nat>

    /** `__init__` stores every parameter as given, without checking it. */
    constructor (passToRanks: PyValue, omnibusComponents: PyValue, omnibusNElbows: PyValue,
                 cmdsComponents: PyValue, cmdsNElbows: PyValue, svdSeed: PyValue)
      ensures GetParams() == ParamList(passToRanks, omnibusComponents, omnibusNElbows, cmdsComponents, cmdsNElbows, svdSeed)
      ensures fittedOmnibusNComponents == Unset && fittedEmbeddings == Unset && fittedCmdsComponents == Unset
    {
      this.passToRanks := passToRanks;
      this.omnibusComponents := omnibusComponents;
      this.omnibusNElbows := omnibusNElbows;
      this.cmdsComponents := cmdsComponents;
      this.cmdsNElbows := cmdsNElbows;
      this.svdSeed := svdSeed;
      fittedOmnibusNComponents, fittedEmbeddings, fittedCmdsComponents := Unset, Unset, Unset;
    }

    function GetParams(): seq<Param>
      reads this
    {
      ParamList(passToRanks, omnibusComponents, omnibusNElbows, cmdsComponents, cmdsNElbows, svdSeed)
    }

    /** `_check_inputs`: pops `pass_to_ranks` and walks the rest in order,
        raising on the first parameter that is neither None nor an int > 0. */
    method CheckInputs() returns (r: Outcome)
      ensures r == Check(Pop(GetParams(), PassToRanksKey))
    {
      var variables := Pop(GetParams(), PassToRanksKey);
      var i := 0;
      while i < |variables|
        invariant 0 <= i <= |variables|
        invariant Check(variables) == Check(variables[i..])
      {
        var p := variables[i];
        if !p.value.PyNone? {
          if AsInt(p.value).None? {
            return Fail(p.name + " must be an int or None.");
          } else if AsInt(p.value).value <= 0 {
            return Fail(p.name + " must be > 0.");
          }
        }
        assert variables[i..][1..] == variables[i + 1..];
        i := i + 1;
      }
      return Pass;
    }

    /** `fit`: the parameter check runs first; when it raises, no attribute
        is touched; otherwise the pipeline's results are stored and the
        estimator itself is returned. */
    method Fit(graphs: seq<Graph>, pipeline: Pipeline) returns (r: Result<Mug2Vec>)
      modifies this
      ensures GetParams() == old(GetParams())
      ensures Check(Pop(GetParams(), PassToRanksKey)).Fail? ==>
                r == ValueError(Check(Pop(GetParams(), PassToRanksKey)).message) && unchanged(this)
      ensures Check(Pop(GetParams(), PassToRanksKey)) == Pass ==>
                var e := pipeline.run(graphs, GetParams());
                && r == Ok(this)
                && fittedOmnibusNComponents == Set(e.omnibusNComponents)
                && fittedEmbeddings == Set(e.embeddings)
                && fittedCmdsComponents == Set(e.nColumns)
    {
      var checked := CheckInputs();
      if checked.Fail? {
        return ValueError(checked.message);
      }
      var e := pipeline.run(graphs, GetParams());
      fittedOmnibusNComponents := Set(e.omnibusNComponents);
      fittedEmbeddings := Set(e.embeddings);
      fittedCmdsComponents := Set(e.nColumns);
      return Ok(this);
    }
  }
}
