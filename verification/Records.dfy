/** Rows of the business database, reduced to the columns the approval-gated services read or write. */
module Records {
  import opened Wrappers

  type Id = string

  datatype Json =
    | JNull
    | JBool(flag: bool)
    | JNumber(number: real)
    | JString(text: string)
    | JArray(items: seq<Json>)
    | JObject(fields: map<string, Json>)

  type Payload = map<string, Json>

  datatype Action =
    | ModelPromotion
    | RetrainingDeployment
    | MaintenanceAction
    | CmmsWorkOrder
    | UnknownAction(text: string)

  datatype Requester = Agent | User | SystemActor | UnknownRequester(text: string)

  datatype ApprovalStatus = Pending | Approved | Rejected | Modified

  datatype Approval = Approval(
    id: Id,
    action: Action,
    entityType: string,
    entityId: Id,
    status: ApprovalStatus,
    proposed: Option<Payload>,
    decision: Option<Payload>,
    requester: Requester,
    requesterId: Option<string>,
    decidedBy: Option<string>,
    reason: Option<string>,
    version: nat)
  {
    /** The payload an executor must use: the human's edit when there is one. */
    function Effective(): Option<Payload> {
      if status.Modified? then decision else proposed
    }

    predicate Executable() {
      status.Approved? || status.Modified?
    }
  }

  /** The columns of a registered model that no service updates. */
  datatype Model = Model(id: Id, name: string, version: nat)

  datatype Stage = Challenger | Champion | Archived

  datatype Outcome =
    | Promotion(modelId: Id, name: string, version: nat, approvalStatus: ApprovalStatus, archived: seq<Id>)
    | Drafted(workOrderId: Id)

  datatype Receipt = Receipt(id: Id, approvalId: Id, outcome: Outcome)

  datatype WorkOrder = WorkOrder(
    id: Id,
    approvalId: Id,
    assetId: string,
    priority: string,
    recommendedAction: string,
    reason: Option<string>,
    riskScore: Option<real>,
    evidence: Option<Payload>,
    sourceModelVersion: Option<string>)

  datatype AuditEvent =
    | Proposed(approvalId: Id)
    | Decided(approvalId: Id, status: ApprovalStatus, actor: string)
    | ChallengerEnsured(modelId: Id)
    | ChampionPromoted(approvalId: Id, modelId: Id, archived: seq<Id>, actor: string)
    | WorkOrderDrafted(approvalId: Id, workOrderId: Id)

  /** One database. `modelOrder` is the creation order of `models`; `receipts` is in commit order. */
  datatype Db = Db(
    approvals: map<Id, Approval>,
    models: map<Id, Model>,
    modelOrder: seq<Id>,
    lifecycle: map<Id, Stage>,
    receipts: seq<Receipt>,
    workOrders: map<Id, WorkOrder>,
    events: set<Id>,
    audit: seq<AuditEvent>)

  const ENTITY_REGISTERED_MODEL := "registered_model"
  const ENTITY_PREDICTION_EVENT := "prediction_event"

  predicate IsSpace(c: char) {
    c == ' ' || c == '\t' || c == '\n' || c == '\r'
  }

  /** A string that `strip()` does not empty. */
  predicate NonBlank(s: string) {
    exists i :: 0 <= i < |s| && !IsSpace(s[i])
  }

  function StripLeft(s: string): string {
    if s != "" && IsSpace(s[0]) then StripLeft(s[1..]) else s
  }

  function StripRight(s: string): string {
    if s != "" && IsSpace(s[|s| - 1]) then StripRight(s[..|s| - 1]) else s
  }

  function Strip(s: string): string {
    StripRight(StripLeft(s))
  }

  /** `strip()` removes white space at both ends, all of it, and nothing else. */
  lemma StripTrims(s: string)
    ensures Strip(s) != "" <==> NonBlank(s)
    ensures Strip(s) != "" ==> !IsSpace(Strip(s)[0]) && !IsSpace(Strip(s)[|Strip(s)| - 1])
    ensures exists i, j :: 0 <= i <= j <= |s| && Strip(s) == s[i..j]
                           && (forall k :: 0 <= k < i || j <= k < |s| ==> IsSpace(s[k]))
  {
    var i := StripLeftIs(s);
    var t := s[i..];
    var j := StripRightIs(t);
    assert t[..j] == s[i..i + j];
    assert forall k :: i + j <= k < |s| ==> s[k] == t[k - i];
    assert NonBlank(s) ==> NonBlank(t) by {
      if NonBlank(s) {
        var k :| 0 <= k < |s| && !IsSpace(s[k]);
        assert t[k - i] == s[k];
      }
    }
    if NonBlank(t) {
      var k :| 0 <= k < |t| && !IsSpace(t[k]);
      assert k < j;
    }
    if t[..j] != "" { assert t[..j][0] == t[0] == s[i]; }
  }

  lemma {:induction false} StripLeftIs(s: string) returns (i: nat)
    ensures i <= |s| && StripLeft(s) == s[i..]
    ensures forall k :: 0 <= k < i ==> IsSpace(s[k])
    ensures i < |s| ==> !IsSpace(s[i])
  {
    i := 0;
    if s != "" && IsSpace(s[0]) {
      var rest := StripLeftIs(s[1..]);
      assert forall k :: 0 <= k < |s[1..]| ==> s[1..][k] == s[k + 1];
      i := rest + 1;
      assert s[1..][rest..] == s[i..];
      if i < |s| { assert s[i] == s[1..][rest]; }
      forall k | 0 <= k < i ensures IsSpace(s[k]) {
        if k > 0 { assert s[k] == s[1..][k - 1]; }
      }
    }
  }

  lemma {:induction false} StripRightIs(s: string) returns (j: nat)
    ensures j <= |s| && StripRight(s) == s[..j]
    ensures forall k :: j <= k < |s| ==> IsSpace(s[k])
    ensures j > 0 ==> !IsSpace(s[j - 1])
  {
    j := |s|;
    if s != "" && IsSpace(s[|s| - 1]) {
      j := StripRightIs(s[..|s| - 1]);
      assert s[..|s| - 1][..j] == s[..j];
      forall k | j <= k < |s| ensures IsSpace(s[k]) {
        if k < |s| - 1 { assert s[k] == s[..|s| - 1][k]; }
      }
    }
  }

  /** What a numeral says. */
  function NumeralValue(s: string): int {
    if s == "" then 0 else 10 * NumeralValue(s[..|s| - 1]) + (s[|s| - 1] as int - '0' as int)
  }

  /** Different versions have different numerals. */
  lemma {:induction false} DecimalReadsBack(n: nat)
    ensures NumeralValue(Decimal(n)) == n
    ensures Decimal(n) != "" && forall c :: c in Decimal(n) ==> '0' <= c <= '9'
  {
    assert "0123456789"[n % 10] as int == '0' as int + n % 10;
    if n >= 10 {
      DecimalReadsBack(n / 10);
      assert Decimal(n)[..|Decimal(n)| - 1] == Decimal(n / 10);
    } else {
      assert Decimal(n)[..0] == "";
    }
  }

  function Decimal(n: nat): string {
    if n < 10 then ["0123456789"[n]] else Decimal(n / 10) + ["0123456789"[n % 10]]
  }

  /** `payload.get(key)` for a text column: a missing key and JSON null both give `None`. */
  function TextAt(p: Payload, key: string): Option<string> {
    if key in p && p[key].JString? then Some(p[key].text) else None
  }

  predicate NullAt(p: Payload, key: string) {
    key !in p || p[key].JNull?
  }
}
