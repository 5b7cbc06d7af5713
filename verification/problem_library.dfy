/** `ProblemLibrary`: the layout of a random QUBO, the sign helper, and the
    names and URIs under which problems are stored. The random draws, the
    container URI and the upload are inputs. */
module ProblemLibrary {
  import Text

  const MetadataName := "metadata_name"
  const CostFunctionKind := "ising"
  const SolverFormatVersion := "1.1"
  const OnlinePrefix := "o_prob_"

  /** The problem handle `get_problem_by_blob_name` returns. */
  datatype OnlineProblem = OnlineProblem(name: string, blobUri: string)

  /** `get_problem_by_blob_name`: `containerUri` is what the workspace reports
      for the problem container, SAS token included. */
  function GetProblemByBlobName(containerUri: string, blobName: string): (r: OnlineProblem)
    ensures |r.name| == |OnlinePrefix| + |blobName|
    ensures r.name[..|OnlinePrefix|] == OnlinePrefix && r.name[|OnlinePrefix|..] == blobName
    ensures |r.blobUri| > |blobName|
    ensures var cut := |r.blobUri| - |blobName| - 1;
      && r.blobUri[cut..] == "/" + blobName
      && r.blobUri[..cut] <= containerUri
      && '?' !in r.blobUri[..cut]
      && (cut == |containerUri| || containerUri[cut] == '?')
  {
    var base := Text.BeforeFirst(containerUri, '?');
    var uri := base + "/" + blobName;
    assert uri[..|base|] == base && uri[|base|..] == "/" + blobName;
    var name := OnlinePrefix + blobName;
    assert name[..|OnlinePrefix|] == OnlinePrefix && name[|OnlinePrefix|..] == blobName;
    OnlineProblem(name, uri)
  }

  /** The query string, which carries the SAS token, is dropped; a URI without
      one is kept whole. */
  lemma SasTokenDropped(base: string, token: string, blobName: string)
    requires '?' !in base
    ensures GetProblemByBlobName(base + "?" + token, blobName).blobUri == base + "/" + blobName
    ensures GetProblemByBlobName(base, blobName).blobUri == base + "/" + blobName
  {
    assert base + "?" + token == base + ("?" + token);
    Text.BeforeFirstSplit(base, '?', "?" + token);
    Text.BeforeFirstSplit(base, '?', "");
    assert base + "" == base;
  }

  /** `_pos_or_neg`, given the `np.random.rand()` value it draws. */
  function PosOrNeg(u: real): (r: int)
    ensures r == 1 || r == -1
    ensures r == 1 <==> u < 0.5
  {
    if u < 0.5 then 1 else -1
  }

  /** One QUBO term: a coefficient and the variable ids it couples. */
  datatype Term = Term(c: real, ids: seq<nat>)

  datatype CostFunction = CostFunction(kind: string, version: string, terms: seq<Term>)

  /** The dictionary `_random_qubo_json` returns. */
  datatype QuboJson = QuboJson(metadataName: string, costFunction: CostFunction)

  /** The random inputs of one QUBO: the constant's magnitude, the matrix of
      magnitudes, and the value each `_pos_or_neg` call draws, numbered in call
      order (call 0 signs the constant, call k the k-th matrix term). */
  datatype Draws = Draws(constant: real, matrix: (nat, nat) -> real, sign: nat -> real)

  /** The constant term, always first. */
  function ConstantTerm(draws: Draws): Term
  {
    Term(draws.constant * PosOrNeg(draws.sign(0)) as real, [])
  }

  /** A diagonal entry is a linear term on one variable, any other a
      quadratic term on the pair. */
  function PairIds(p: (nat, nat)): seq<nat>
  {
    if p.0 == p.1 then [p.0] else [p.0, p.1]
  }

  /** The term for matrix entry `p`, signed by `_pos_or_neg` call `call`. */
  function PairTerm(p: (nat, nat), draws: Draws, call: nat): Term
  {
    Term(draws.matrix(p.0, p.1) * PosOrNeg(draws.sign(call)) as real, PairIds(p))
  }

  /** Row `i` of the upper triangle: (i, i), (i, i+1), ..., (i, n-1). */
  function Row(i: nat, n: nat): (r: seq<(nat, nat)>)
    requires i <= n
    ensures |r| == n - i
    ensures forall k :: 0 <= k < |r| ==> r[k] == (i, i + k)
  {
    seq(n - i, k requires 0 <= k < n - i => (i, i + k))
  }

  /** The first `i` rows of the upper triangle, row after row. */
  function RowsBefore(i: nat, n: nat): seq<(nat, nat)>
    requires i <= n
  {
    if i == 0 then [] else RowsBefore(i - 1, n) + Row(i - 1, n)
  }

  /** The entries `_random_qubo_json` visits: (i, j) with 0 <= i <= j < n, in
      row-major order. */
  function UpperPairs(n: int): seq<(nat, nat)>
  {
    if n <= 0 then [] else RowsBefore(n, n)
  }

  lemma RowStepArithmetic(i: int, n: int)
    ensures 2 * (i - 1) * n - (i - 1) * (i - 2) + 2 * (n - (i - 1)) == 2 * i * n - i * (i - 1)
  {
  }

  lemma {:induction false} RowsCount(i: nat, n: nat)
    requires i <= n
    ensures 2 * |RowsBefore(i, n)| == 2 * i * n - i * (i - 1)
  {
    if i > 0 {
      RowsCount(i - 1, n);
      assert |RowsBefore(i, n)| == |RowsBefore(i - 1, n)| + (n - (i - 1));
      RowStepArithmetic(i, n);
    }
  }

  /** There are n(n+1)/2 entries in the upper triangle. */
  lemma UpperPairsCount(n: int)
    ensures n > 0 ==> 2 * |UpperPairs(n)| == n * (n + 1)
    ensures n <= 0 ==> UpperPairs(n) == []
  {
    if n > 0 {
      RowsCount(n, n);
    }
  }

  lemma {:induction false} RowsMembership(i: nat, n: nat, p: (nat, nat))
    requires i <= n
    ensures p in RowsBefore(i, n) <==> p.0 < i && p.0 <= p.1 < n
  {
    if i > 0 {
      RowsMembership(i - 1, n, p);
      if p.0 == i - 1 && p.0 <= p.1 < n {
        assert Row(i - 1, n)[p.1 - p.0] == p;
      }
    }
  }

  /** An entry is visited exactly when it lies on or above the diagonal. */
  lemma UpperPairsMembership(n: int, p: (nat, nat))
    ensures p in UpperPairs(n) <==> p.0 <= p.1 < n
  {
    if n > 0 {
      RowsMembership(n, n, p);
    }
  }

  /** Row-major order: `p` strictly precedes `q`. */
  predicate RowMajorBefore(p: (nat, nat), q: (nat, nat))
  {
    p.0 < q.0 || (p.0 == q.0 && p.1 < q.1)
  }

  lemma {:induction false} RowsSorted(i: nat, n: nat)
    requires i <= n
    ensures forall a, b :: 0 <= a < b < |RowsBefore(i, n)| ==> RowMajorBefore(RowsBefore(i, n)[a], RowsBefore(i, n)[b])
  {
    if i > 0 {
      var before := RowsBefore(i - 1, n);
      var row := Row(i - 1, n);
      RowsSorted(i - 1, n);
      forall a, b | 0 <= a < b < |before + row|
        ensures RowMajorBefore((before + row)[a], (before + row)[b])
      {
        if b < |before| {
          assert (before + row)[a] == before[a] && (before + row)[b] == before[b];
        } else if a >= |before| {
          assert (before + row)[a] == row[a - |before|] && (before + row)[b] == row[b - |before|];
        } else {
          assert (before + row)[a] in before;
          RowsMembership(i - 1, n, (before + row)[a]);
          assert (before + row)[b] == row[b - |before|];
        }
      }
    }
  }

  /** The visit order is strictly row-major, so no entry is visited twice. */
  lemma UpperPairsSorted(n: int)
    ensures forall a, b :: 0 <= a < b < |UpperPairs(n)| ==> RowMajorBefore(UpperPairs(n)[a], UpperPairs(n)[b])
  {
    if n > 0 {
      RowsSorted(n, n);
    }
  }

  /** `_random_qubo_json` with its nested loops. The `_pos_or_neg` call for a
      term is numbered by how many terms precede it. */
  method RandomQuboJson(n: int, draws: Draws) returns (q: QuboJson)
    ensures q.metadataName == MetadataName
    ensures q.costFunction.kind == CostFunctionKind && q.costFunction.version == SolverFormatVersion
    ensures n <= 0 ==> q.costFunction.terms == []
    ensures n > 0 ==> |q.costFunction.terms| == 1 + |UpperPairs(n)| && q.costFunction.terms[0] == ConstantTerm(draws)
    ensures forall k :: 0 <= k < |UpperPairs(n)| ==>
      (k + 1 < |q.costFunction.terms| && q.costFunction.terms[k + 1] == PairTerm(UpperPairs(n)[k], draws, k + 1))
  {
    var terms: seq<Term> := [];
    if n > 0 {
      var m: nat := n;
      var c := draws.constant * PosOrNeg(draws.sign(0)) as real;
      terms := [Term(c, [])];
      for i := 0 to m
        invariant |terms| == 1 + |RowsBefore(i, m)|
        invariant terms[0] == ConstantTerm(draws)
        invariant forall k :: 0 <= k < |RowsBefore(i, m)| ==> terms[k + 1] == PairTerm(RowsBefore(i, m)[k], draws, k + 1)
      {
        ghost var done := RowsBefore(i, m);
        ghost var row := Row(i, m);
        for j := i to m
          invariant |terms| == 1 + |done| + (j - i)
          invariant terms[0] == ConstantTerm(draws)
          invariant forall k :: 0 <= k < |done| + (j - i) ==> terms[k + 1] == PairTerm((done + row)[k], draws, k + 1)
        {
          assert (done + row)[|done| + (j - i)] == (i, j);
          var sign := PosOrNeg(draws.sign(|terms|));
          if i == j {
            terms := terms + [Term(draws.matrix(i, j) * sign as real, [i])];
          } else {
            terms := terms + [Term(draws.matrix(i, j) * sign as real, [i, j])];
          }
        }
        assert RowsBefore(i + 1, m) == done + row;
      }
      assert UpperPairs(n) == RowsBefore(m, m);
    } else {
      assert UpperPairs(n) == [];
    }
    q := QuboJson(MetadataName, CostFunction(CostFunctionKind, SolverFormatVersion, terms));
  }

  /** Every term after the constant names variables below `n`: one for a
      diagonal entry, two strictly increasing ones otherwise. */
  lemma TermIdsWellFormed(n: int, k: nat)
    requires k < |UpperPairs(n)|
    ensures var ids := PairIds(UpperPairs(n)[k]);
      && (|ids| == 1 || (|ids| == 2 && ids[0] < ids[1]))
      && forall x :: x in ids ==> x < n
  {
    UpperPairsMembership(n, UpperPairs(n)[k]);
  }

  /** The name `generate_random_qubo_if_not_exists` falls back to. */
  function DefaultBlobName(size: int): (r: string)
    ensures |r| > 12 && r[..12] == "random_qubo_"
  {
    var r := "random_qubo_" + Text.IntToString(size);
    assert r[..12] == "random_qubo_";
    r
  }

  /** The name `generate_random_qubo` falls back to, given the fresh uuid. */
  function UniqueBlobName(uuid: string, size: int): (r: string)
    ensures |r| > |uuid| + 13 && r[..|uuid|] == uuid && r[|uuid|..|uuid| + 13] == "_random_qubo_"
  {
    var r := uuid + "_random_qubo_" + Text.IntToString(size);
    assert r[..|uuid|] == uuid && r[|uuid|..|uuid| + 13] == "_random_qubo_";
    r
  }

  /** Both default names end in the size, which can be read back. */
  lemma BlobNameSizeRoundTrip(uuid: string, size: int)
    ensures Text.IsIntText(DefaultBlobName(size)[12..]) && Text.ParseInt(DefaultBlobName(size)[12..]) == size
    ensures var u := UniqueBlobName(uuid, size);
      Text.IsIntText(u[|uuid| + 13..]) && Text.ParseInt(u[|uuid| + 13..]) == size
  {
    Text.IntToStringRoundTrip(size);
    assert DefaultBlobName(size)[12..] == Text.IntToString(size);
    assert UniqueBlobName(uuid, size)[|uuid| + 13..] == Text.IntToString(size);
  }

  /** The blob name `generate_random_qubo` uploads under. */
  function GenerateBlobName(size: int, blobName: string, uuid: string): (r: string)
    ensures r != ""
    ensures blobName != "" ==> r == blobName
    ensures blobName == "" ==> r == UniqueBlobName(uuid, size)
  {
    if blobName == "" then UniqueBlobName(uuid, size) else blobName
  }

  /** The blob name `generate_random_qubo_if_not_exists` looks up. */
  function IfNotExistsBlobName(size: int, blobName: string): (r: string)
    ensures r != ""
    ensures blobName != "" ==> r == blobName
    ensures blobName == "" ==> r == DefaultBlobName(size)
  {
    if blobName == "" then DefaultBlobName(size) else blobName
  }

  /** `generate_random_qubo_if_not_exists`: the resolved name, and the URI of
      the blob, fresh from `upload` when none exists under that name,
      otherwise built from the container URI. The name handed on to
      `generate_random_qubo` is never empty, so the uuid name is never used on
      this path and the upload goes under the resolved name. */
  function GenerateRandomQuboIfNotExists(size: int, blobName: string, uuid: string, containerUri: string,
                                         blobExists: string -> bool, upload: string -> string): (r: (string, string))
    ensures r.0 == IfNotExistsBlobName(size, blobName)
    ensures !blobExists(r.0) ==> r.1 == upload(r.0)
    ensures blobExists(r.0) ==> r.1 == GetProblemByBlobName(containerUri, r.0).blobUri
  {
    var name := IfNotExistsBlobName(size, blobName);
    if !blobExists(name) then
      var generated := GenerateBlobName(size, name, uuid);
      (generated, upload(generated))
    else
      (name, GetProblemByBlobName(containerUri, name).blobUri)
  }
}
