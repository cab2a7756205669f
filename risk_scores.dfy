/**
 * The per-row record builder of the scoring endpoint (backend/app.py,
 * `get_risk_scores`). The anomaly model's integer score and its prediction
 * for each row are inputs; the rest is the loop that turns data rows into
 * result records.
 */
module RiskScores {

  /** One data row: the columns the handler reads. */
  datatype Row = Row(
    userId: int,
    ipAddress: string,
    fileAccess: int,
    loginCount: int,
    remoteLogin: int,
    networkSpike: int)

  /** One element of the JSON response. */
  datatype Record = Record(id: int, ip: string, score: int, status: string, reasons: seq<string>)

  const SUSPICIOUS := "suspicious"
  const NORMAL := "normal"

  const NETWORK_REASON := "Unusual network activity"
  const REMOTE_REASON := "Remote login detected"
  const FILE_REASON := "High file access frequency"
  const LOGIN_REASON := "Excessive login attempts"

  /** Every reason the handler can give, in the order it checks for them. */
  const CATALOGUE: seq<string> := [NETWORK_REASON, REMOTE_REASON, FILE_REASON, LOGIN_REASON]

  /** The condition behind reason `k` of the catalogue. */
  predicate Triggered(row: Row, k: nat)
    ensures k == 0 ==> (Triggered(row, k) <==> row.networkSpike == 1)
    ensures k == 1 ==> (Triggered(row, k) <==> row.remoteLogin == 1)
    ensures k == 2 ==> (Triggered(row, k) <==> row.fileAccess > 15)
    ensures k == 3 ==> (Triggered(row, k) <==> row.loginCount > 25)
    ensures k >= |CATALOGUE| ==> !Triggered(row, k)
  {
    || (k == 0 && row.networkSpike == 1)
    || (k == 1 && row.remoteLogin == 1)
    || (k == 2 && row.fileAccess > 15)
    || (k == 3 && row.loginCount > 25)
  }

  function Conditions(row: Row): nat -> bool
  {
    (k: nat) => Triggered(row, k)
  }

  /** The entries of `items` from position `k` on that `keep` selects, in their order. */
  function Pick<T>(items: seq<T>, keep: nat -> bool, k: nat): seq<T>
    decreases |items| - k
  {
    if k >= |items| then []
    else (if keep(k) then [items[k]] else []) + Pick(items, keep, k + 1)
  }

  /** The positions from `k` on that `keep` selects. */
  function Positions(n: nat, keep: nat -> bool, k: nat): seq<nat>
    decreases n - k
  {
    if k >= n then []
    else (if keep(k) then [k] else []) + Positions(n, keep, k + 1)
  }

  /** The reasons the record of `row` must carry. */
  function ExpectedReasons(row: Row): (reasons: seq<string>)
    ensures |reasons| <= |CATALOGUE|
    ensures forall i :: 0 <= i < |reasons| ==> reasons[i] in CATALOGUE
  {
    PickPositions(CATALOGUE, Conditions(row), 0);
    Pick(CATALOGUE, Conditions(row), 0)
  }

  /**
   * What `Pick` selects are the entries at strictly increasing positions
   * from `k` on, each of which `keep` accepts.
   */
  lemma {:induction false} PickPositions<T>(items: seq<T>, keep: nat -> bool, k: nat)
    requires k <= |items|
    ensures |Positions(|items|, keep, k)| == |Pick(items, keep, k)| <= |items| - k
    ensures forall i :: 0 <= i < |Positions(|items|, keep, k)| ==>
      && k <= Positions(|items|, keep, k)[i] < |items|
      && keep(Positions(|items|, keep, k)[i])
      && Pick(items, keep, k)[i] == items[Positions(|items|, keep, k)[i]]
    ensures forall i, j :: 0 <= i < j < |Positions(|items|, keep, k)| ==>
      Positions(|items|, keep, k)[i] < Positions(|items|, keep, k)[j]
    decreases |items| - k
  {
    if k < |items| {
      PickPositions(items, keep, k + 1);
      var ps, rs := Positions(|items|, keep, k + 1), Pick(items, keep, k + 1);
      if keep(k) {
        var ps', rs' := [k] + ps, [items[k]] + rs;
        assert Positions(|items|, keep, k) == ps' && Pick(items, keep, k) == rs';
        forall i | 0 <= i < |ps'|
          ensures k <= ps'[i] < |items| && keep(ps'[i]) && rs'[i] == items[ps'[i]]
        {
          if i > 0 { assert ps'[i] == ps[i - 1] && rs'[i] == rs[i - 1]; }
        }
        forall i, j | 0 <= i < j < |ps'| ensures ps'[i] < ps'[j] {
          assert ps'[j] == ps[j - 1];
          if i > 0 { assert ps'[i] == ps[i - 1]; }
        }
      }
    }
  }

  lemma {:induction false} PositionsMember(n: nat, keep: nat -> bool, k: nat, m: nat)
    requires k <= m < n && keep(m)
    ensures m in Positions(n, keep, k)
    decreases n - k
  {
    if k < m {
      PositionsMember(n, keep, k + 1, m);
    }
  }

  /** With distinct entries, entry `m` is picked iff `keep` accepts position `m`. */
  lemma PickMember<T>(items: seq<T>, keep: nat -> bool, m: nat)
    requires m < |items|
    requires forall a, b :: 0 <= a < |items| && 0 <= b < |items| && a != b ==> items[a] != items[b]
    ensures items[m] in Pick(items, keep, 0) <==> keep(m)
  {
    PickPositions(items, keep, 0);
    var ps, rs := Positions(|items|, keep, 0), Pick(items, keep, 0);
    if items[m] in rs {
      var i :| 0 <= i < |rs| && rs[i] == items[m];
      assert rs[i] == items[ps[i]];
      assert ps[i] == m;
    }
    if keep(m) {
      PositionsMember(|items|, keep, 0, m);
      var i :| 0 <= i < |ps| && ps[i] == m;
      assert rs[i] == items[m];
    }
  }

  lemma CatalogueDistinct()
    ensures forall a, b :: 0 <= a < |CATALOGUE| && 0 <= b < |CATALOGUE| && a != b ==> CATALOGUE[a] != CATALOGUE[b]
  {
  }

  /** Each of the four reasons is present exactly when its condition holds. */
  lemma ReasonsPresent(row: Row)
    ensures NETWORK_REASON in ExpectedReasons(row) <==> row.networkSpike == 1
    ensures REMOTE_REASON in ExpectedReasons(row) <==> row.remoteLogin == 1
    ensures FILE_REASON in ExpectedReasons(row) <==> row.fileAccess > 15
    ensures LOGIN_REASON in ExpectedReasons(row) <==> row.loginCount > 25
  {
    CatalogueDistinct();
    PickMember(CATALOGUE, Conditions(row), 0);
    PickMember(CATALOGUE, Conditions(row), 1);
    PickMember(CATALOGUE, Conditions(row), 2);
    PickMember(CATALOGUE, Conditions(row), 3);
  }

  /**
   * The reasons are catalogue entries at strictly increasing positions (the
   * order network, remote, file access, logins), so there are no duplicates
   * and at most four.
   */
  lemma ReasonsOrdered(row: Row)
    ensures |ExpectedReasons(row)| <= |CATALOGUE|
    ensures |Positions(|CATALOGUE|, Conditions(row), 0)| == |ExpectedReasons(row)|
    ensures forall i :: 0 <= i < |ExpectedReasons(row)| ==> Positions(|CATALOGUE|, Conditions(row), 0)[i] < |CATALOGUE|
    ensures forall i :: 0 <= i < |ExpectedReasons(row)| ==>
      ExpectedReasons(row)[i] == CATALOGUE[Positions(|CATALOGUE|, Conditions(row), 0)[i]]
    ensures forall i, j :: 0 <= i < j < |ExpectedReasons(row)| ==>
      Positions(|CATALOGUE|, Conditions(row), 0)[i] < Positions(|CATALOGUE|, Conditions(row), 0)[j]
    ensures forall i, j :: 0 <= i < j < |ExpectedReasons(row)| ==>
      ExpectedReasons(row)[i] != ExpectedReasons(row)[j]
  {
    PickPositions(CATALOGUE, Conditions(row), 0);
    CatalogueDistinct();
    var ps, rs := Positions(|CATALOGUE|, Conditions(row), 0), ExpectedReasons(row);
    forall i, j | 0 <= i < j < |rs| ensures rs[i] != rs[j] {
      assert rs[i] == CATALOGUE[ps[i]] && rs[j] == CATALOGUE[ps[j]] && ps[i] < ps[j];
    }
  }

  /** The status of a row: suspicious when the model predicts an outlier (-1), normal otherwise. */
  function StatusOf(prediction: int): (status: string)
    ensures status == SUSPICIOUS <==> prediction == -1
    ensures status == NORMAL <==> prediction != -1
  {
    if prediction == -1 then SUSPICIOUS else NORMAL
  }

  /** The record the handler builds for one row from that row's score and prediction. */
  function RecordFor(row: Row, score: int, prediction: int): (r: Record)
    ensures r.id == row.userId && r.ip == row.ipAddress && r.score == score
    ensures r.status == SUSPICIOUS <==> prediction == -1
    ensures r.status == NORMAL <==> prediction != -1
    ensures NETWORK_REASON in r.reasons <==> row.networkSpike == 1
    ensures REMOTE_REASON in r.reasons <==> row.remoteLogin == 1
    ensures FILE_REASON in r.reasons <==> row.fileAccess > 15
    ensures LOGIN_REASON in r.reasons <==> row.loginCount > 25
    ensures |r.reasons| <= |CATALOGUE|
  {
    ReasonsPresent(row);
    Record(row.userId, row.ipAddress, score, StatusOf(prediction), ExpectedReasons(row))
  }

  /** The body of the loop that collects the reasons of one row. */
  method BuildReasons(row: Row) returns (reasons: seq<string>)
    ensures reasons == ExpectedReasons(row)
  {
    reasons := [];
    if row.networkSpike == 1 {
      reasons := reasons + [NETWORK_REASON];
    }
    if row.remoteLogin == 1 {
      reasons := reasons + [REMOTE_REASON];
    }
    if row.fileAccess > 15 {
      reasons := reasons + [FILE_REASON];
    }
    if row.loginCount > 25 {
      reasons := reasons + [LOGIN_REASON];
    }
    var keep := Conditions(row);
    assert Pick(CATALOGUE, keep, 4) == [];
    assert Pick(CATALOGUE, keep, 3) == (if keep(3) then [LOGIN_REASON] else []);
    assert Pick(CATALOGUE, keep, 2) == (if keep(2) then [FILE_REASON] else []) + Pick(CATALOGUE, keep, 3);
    assert Pick(CATALOGUE, keep, 1) == (if keep(1) then [REMOTE_REASON] else []) + Pick(CATALOGUE, keep, 2);
    assert Pick(CATALOGUE, keep, 0) == (if keep(0) then [NETWORK_REASON] else []) + Pick(CATALOGUE, keep, 1);
  }

  /**
   * `get_risk_scores` after the model has scored the rows: one record per
   * row, in row order, each built from its own row, score and prediction.
   */
  method GetRiskScores(rows: seq<Row>, scores: seq<int>, predictions: seq<int>) returns (results: seq<Record>)
    requires |scores| == |rows| && |predictions| == |rows|
    ensures |results| == |rows|
    ensures forall i :: 0 <= i < |rows| ==> results[i] == RecordFor(rows[i], scores[i], predictions[i])
  {
    results := [];
    for i := 0 to |rows|
      invariant |results| == i
      invariant forall k :: 0 <= k < i ==> results[k] == RecordFor(rows[k], scores[k], predictions[k])
    {
      var score := scores[i];
      var status := StatusOf(predictions[i]);
      var reasons := BuildReasons(rows[i]);
      results := results + [Record(rows[i].userId, rows[i].ipAddress, score, status, reasons)];
    }
  }
}
