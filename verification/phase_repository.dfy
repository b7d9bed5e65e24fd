/**
 * PhaseRepository: the phase list, ordered by each phase's `order`, and the
 * instruction text of a phase.
 *
 * Reading and JSON-decoding the configuration file are outside the model:
 * the decoded list, or the failure to read the file, is the input.
 * Instruction files are a map from path to content.
 */
module PhaseRepository {
  import opened Text

  /**
   * A phase of the migration. `inputs` are the entries of the phase's input
   * table in iteration order.
   */
  datatype Phase = Phase(name: string, instructions: string, id: string, order: int, inputs: seq<(string, string)>)

  // ---------------------------------------------------------------------
  // Sorting by order
  // ---------------------------------------------------------------------

  predicate SortedByOrder(ps: seq<Phase>) {
    forall i, j :: 0 <= i < j < |ps| ==> ps[i].order <= ps[j].order
  }

  /** `p` placed before the first phase whose order is not smaller. */
  function Insert(p: Phase, ps: seq<Phase>): (r: seq<Phase>)
    ensures multiset(r) == multiset(ps) + multiset{p}
    ensures |r| == |ps| + 1
    decreases |ps|
  {
    if ps == [] || p.order <= ps[0].order then [p] + ps
    else
      assert ps == [ps[0]] + ps[1..];
      [ps[0]] + Insert(p, ps[1..])
  }

  /**
   * `sorted(Comparator.comparingInt(Phase::getOrder))` on an ordered stream:
   * a stable sort, here an insertion sort that places each phase before the
   * already sorted later ones of the same order.
   */
  function SortByOrder(ps: seq<Phase>): (r: seq<Phase>)
    ensures multiset(r) == multiset(ps)
    ensures |r| == |ps|
    decreases |ps|
  {
    if ps == [] then []
    else
      assert ps == [ps[0]] + ps[1..];
      Insert(ps[0], SortByOrder(ps[1..]))
  }

  predicate AtLeast(ps: seq<Phase>, bound: int) {
    forall k :: 0 <= k < |ps| ==> bound <= ps[k].order
  }

  /** Inserting keeps a common lower bound of the orders. */
  lemma {:induction false} InsertAtLeast(p: Phase, ps: seq<Phase>, bound: int)
    requires AtLeast(ps, bound) && bound <= p.order
    ensures AtLeast(Insert(p, ps), bound)
    decreases |ps|
  {
    if ps != [] && p.order > ps[0].order {
      InsertAtLeast(p, ps[1..], bound);
      assert Insert(p, ps) == [ps[0]] + Insert(p, ps[1..]);
    }
  }

  lemma SortedCons(p: Phase, ps: seq<Phase>)
    requires SortedByOrder(ps) && AtLeast(ps, p.order)
    ensures SortedByOrder([p] + ps)
  {
    var r := [p] + ps;
    forall i, j | 0 <= i < j < |r|
      ensures r[i].order <= r[j].order
    {
      assert r[j] == ps[j - 1];
      if i > 0 {
        assert r[i] == ps[i - 1];
      }
    }
  }

  lemma {:induction false} InsertSorted(p: Phase, ps: seq<Phase>)
    requires SortedByOrder(ps)
    ensures SortedByOrder(Insert(p, ps))
    decreases |ps|
  {
    if ps == [] || p.order <= ps[0].order {
      SortedCons(p, ps);
    } else {
      InsertSorted(p, ps[1..]);
      InsertAtLeast(p, ps[1..], ps[0].order);
      SortedCons(ps[0], Insert(p, ps[1..]));
    }
  }

  /** getPhases returns the phases in non-decreasing order. */
  lemma {:induction false} SortByOrderSorted(ps: seq<Phase>)
    ensures SortedByOrder(SortByOrder(ps))
    decreases |ps|
  {
    if ps != [] {
      SortByOrderSorted(ps[1..]);
      InsertSorted(ps[0], SortByOrder(ps[1..]));
    }
  }

  /** The phases of one order, in the order they appear. */
  function WithOrder(ps: seq<Phase>, order: int): (r: seq<Phase>)
    ensures forall k :: 0 <= k < |r| ==> r[k].order == order
    decreases |ps|
  {
    if ps == [] then []
    else if ps[0].order == order then [ps[0]] + WithOrder(ps[1..], order)
    else WithOrder(ps[1..], order)
  }

  /** Inserting `p` puts it in front of every phase of its own order. */
  lemma {:induction false} InsertWithOrder(p: Phase, ps: seq<Phase>, order: int)
    ensures WithOrder(Insert(p, ps), order) == if p.order == order then [p] + WithOrder(ps, order) else WithOrder(ps, order)
    decreases |ps|
  {
    if ps == [] || p.order <= ps[0].order {
      var r := Insert(p, ps);
      assert r[0] == p && r[1..] == ps;
    } else {
      var r := Insert(p, ps);
      assert r[0] == ps[0] && r[1..] == Insert(p, ps[1..]);
      InsertWithOrder(p, ps[1..], order);
    }
  }

  /** The sort is stable: phases of equal order keep the order they were loaded in. */
  lemma {:induction false} SortByOrderStable(ps: seq<Phase>, order: int)
    ensures WithOrder(SortByOrder(ps), order) == WithOrder(ps, order)
    decreases |ps|
  {
    if ps != [] {
      SortByOrderStable(ps[1..], order);
      InsertWithOrder(ps[0], SortByOrder(ps[1..]), order);
    }
  }

  /** The first phase run has the least order of all loaded phases. */
  lemma SortedFirstIsLeast(ps: seq<Phase>)
    requires ps != []
    ensures SortByOrder(ps) != []
    ensures forall k :: 0 <= k < |ps| ==> SortByOrder(ps)[0].order <= ps[k].order
  {
    var r := SortByOrder(ps);
    SortByOrderSorted(ps);
    forall k | 0 <= k < |ps|
      ensures r[0].order <= ps[k].order
    {
      assert ps[k] in multiset(r);
      var j :| 0 <= j < |r| && r[j] == ps[k];
    }
  }

  // ---------------------------------------------------------------------
  // The repository
  // ---------------------------------------------------------------------

  const ConfigError := "Failed to load phases configuration"

  /**
   * getPhases. `config` is the decoded configuration list, or `Err` when the
   * file could not be read.
   */
  function GetPhases(config: Result<seq<Phase>>): (r: Result<seq<Phase>>)
    ensures config.Err? <==> r.Err?
    ensures r.Err? ==> r.error == ConfigError
    ensures r.Ok? ==> multiset(r.value) == multiset(config.value) && r.value == SortByOrder(config.value)
  {
    match config
    case Err(_) => Err(ConfigError)
    case Ok(phases) => Ok(SortByOrder(phases))
  }

  /** The loaded phases come back sorted, as a permutation, with equal orders in load order. */
  lemma GetPhasesOrdered(phases: seq<Phase>, order: int)
    ensures GetPhases(Ok(phases)).Ok?
    ensures SortedByOrder(GetPhases(Ok(phases)).value)
    ensures multiset(GetPhases(Ok(phases)).value) == multiset(phases)
    ensures WithOrder(GetPhases(Ok(phases)).value, order) == WithOrder(phases, order)
  {
    SortByOrderSorted(phases);
    SortByOrderStable(phases, order);
  }

  /** getPhaseInstructions: the file named by the phase, resolved in the instructions directory. */
  function GetPhaseInstructions(instructionsDir: string, files: map<string, string>, phase: Phase): (r: Result<string>)
    ensures r.Ok? <==> instructionsDir + "/" + phase.instructions in files
    ensures r.Ok? ==> r.value == files[instructionsDir + "/" + phase.instructions]
    ensures r.Err? ==> r.error == "Failed to load instructions for phase: " + phase.name
  {
    var path := instructionsDir + "/" + phase.instructions;
    if path in files then Ok(files[path])
    else Err("Failed to load instructions for phase: " + phase.name)
  }
}
