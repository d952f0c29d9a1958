/** What one draft's answers say about a candidate: the normalizers and verdicts of
    backend/ozon/draft_validation.py. */
module DraftEvidence {
  import opened Wrappers
  import opened Sequences
  import opened Text
  import opened StableSort
  import opened Candidates
  import opened Orchestration

  datatype Invalid = InvalidDraftResponse

  datatype ClusterIdentity = ClusterIdentity(cluster: string, macro: nat)

  /** `sku` is absent when the answer holds no positive integer there. */
  datatype RawItem = RawItem(sku: Option<nat>, reasons: seq<string>)

  datatype RawItems = RawItems(macro: nat, rejected: seq<RawItem>)

  datatype RawError = RawError(reasons: seq<string>, items: seq<RawItems>)

  datatype WarehouseRow = WarehouseRow(id: nat, eligible: bool, contradicted: bool)

  datatype ClusterRows = ClusterRows(macro: nat, rows: seq<WarehouseRow>)

  // ---- reason codes ----

  /** `_normalized_reason_codes` */
  function Normalized(values: seq<string>): (codes: seq<string>)
    ensures NoDup(codes)
    ensures forall c :: c in codes <==> c in values && c != "" && c != "UNSPECIFIED"
  {
    if |values| == 0 then []
    else
      var init, last := Normalized(values[..|values| - 1]), values[|values| - 1];
      InitLast(values);
      if last != "" && last != "UNSPECIFIED" && last !in init then init + [last] else init
  }

  method NormalizeReasons(values: seq<string>) returns (codes: seq<string>)
    ensures codes == Normalized(values)
  {
    codes := [];
    for i := 0 to |values|
      invariant codes == Normalized(values[..i])
    {
      TakeTake(values, i);
      if values[i] != "" && values[i] != "UNSPECIFIED" && values[i] !in codes {
        codes := codes + [values[i]];
      }
    }
    TakeAll(values);
  }

  // ---- identities on the wire ----

  /** `int(row.sku)` of an ASCII decimal SKU. */
  function WireSku(sku: string): (n: Option<nat>) {
    if |sku| == 0 then None
    else
      var d := sku[|sku| - 1];
      if !('0' <= d <= '9') then None
      else if |sku| == 1 then Some((d - '0') as nat)
      else
        var front := WireSku(sku[..|sku| - 1]);
        if front.None? then None else Some(front.value * 10 + (d - '0') as nat)
  }

  /** The usual decimal numeral of a number. */
  function Numeral(n: nat): (s: string)
    ensures |s| > 0
  {
    if n < 10 then ['0' + n as char] else Numeral(n / 10) + ['0' + (n % 10) as char]
  }

  /** A SKU has a number on the wire exactly when it is all digits. */
  lemma {:induction false} DigitsHaveNumber(sku: string)
    ensures WireSku(sku).Some? <==> |sku| > 0 && forall i :: 0 <= i < |sku| ==> '0' <= sku[i] <= '9'
  {
    if |sku| > 1 {
      var front := sku[..|sku| - 1];
      DigitsHaveNumber(front);
      InitLast(sku);
      assert forall i :: 0 <= i < |front| ==> front[i] == sku[i];
    }
  }

  /** The numeral of a number is read as the number, also with zeros in front. */
  lemma {:induction false} NumeralIsRead(zeros: string, n: nat)
    requires forall c <- zeros :: c == '0'
    ensures WireSku(zeros + Numeral(n)) == Some(n)
  {
    if n < 10 {
      SnocInit(zeros, '0' + n as char);
      ZerosAreNothing(zeros);
    } else {
      var front, d := zeros + Numeral(n / 10), '0' + (n % 10) as char;
      NumeralIsRead(zeros, n / 10);
      SnocInit(front, d);
      Associative(zeros, Numeral(n / 10), [d]);
    }
  }

  lemma {:induction false} ZerosAreNothing(zeros: string)
    requires forall c <- zeros :: c == '0'
    ensures |zeros| > 0 ==> WireSku(zeros) == Some(0)
  {
    if |zeros| > 0 {
      var init, last := zeros[..|zeros| - 1], zeros[|zeros| - 1];
      assert forall c <- init :: c in zeros;
      assert last in zeros;
      ZerosAreNothing(init);
    }
  }

  /** `destination_by_macro`: the last cluster of a macro-cluster. */
  function DestinationOf(ids: seq<ClusterIdentity>, macro: nat): (d: Option<string>)
    ensures d.Some? <==> exists x <- ids :: x.macro == macro
  {
    if |ids| == 0 then None
    else
      var last := ids[|ids| - 1];
      InitLast(ids);
      if last.macro == macro then Some(last.cluster) else DestinationOf(ids[..|ids| - 1], macro)
  }

  predicate IsItem(row: Assignment, cluster: string, sku: nat) {
    row.cluster == cluster && WireSku(row.sku) == Some(sku)
  }

  function Matches(rows: seq<Assignment>, cluster: string, sku: nat): (r: seq<Assignment>)
    ensures forall x :: x in r <==> x in rows && IsItem(x, cluster, sku)
  {
    if |rows| == 0 then []
    else
      var rest := Matches(rows[1..], cluster, sku);
      HeadTail(rows);
      if IsItem(rows[0], cluster, sku) then [rows[0]] + rest else rest
  }

  function Code(reasons: seq<string>): string {
    var codes := Normalized(reasons);
    if |codes| > 0 then codes[0] else "OZON_REJECTED"
  }

  /** One rejected item of an answer, read as the rejection of exactly one row of the candidate. */
  function ReadItem(rows: seq<Assignment>, ids: seq<ClusterIdentity>, macro: nat, raw: RawItem): Option<Rejection> {
    var cluster := DestinationOf(ids, macro);
    if cluster.None? || raw.sku.None? then None
    else
      var found := Matches(rows, cluster.value, raw.sku.value);
      if |found| != 1 || Blank(Code(raw.reasons)) then None
      else Some(Rejection(found[0].sku, cluster.value, found[0].quantity, Code(raw.reasons)))
  }

  // ---- the loops over an answer's errors ----

  function ReadItems(rows: seq<Assignment>, ids: seq<ClusterIdentity>, macro: nat, raws: seq<RawItem>): Option<seq<Rejection>> {
    if |raws| == 0 then Some([])
    else
      var init, last := ReadItems(rows, ids, macro, raws[..|raws| - 1]), ReadItem(rows, ids, macro, raws[|raws| - 1]);
      if init.None? || last.None? then None else Some(init.value + [last.value])
  }

  function ReadGroups(rows: seq<Assignment>, ids: seq<ClusterIdentity>, groups: seq<RawItems>): Option<seq<Rejection>> {
    if |groups| == 0 then Some([])
    else
      var g := groups[|groups| - 1];
      var init := ReadGroups(rows, ids, groups[..|groups| - 1]);
      var last := if DestinationOf(ids, g.macro).None? then None else ReadItems(rows, ids, g.macro, g.rejected);
      if init.None? || last.None? then None else Some(init.value + last.value)
  }

  function ReadErrors(rows: seq<Assignment>, ids: seq<ClusterIdentity>, errors: seq<RawError>): Option<seq<Rejection>> {
    if |errors| == 0 then Some([])
    else
      var init := ReadErrors(rows, ids, errors[..|errors| - 1]);
      var last := ReadGroups(rows, ids, errors[|errors| - 1].items);
      if init.None? || last.None? then None else Some(init.value + last.value)
  }

  /** `_error_reason_codes` and `rejected_reason_codes` */
  function ErrorReasons(errors: seq<RawError>): seq<string> {
    if |errors| == 0 then []
    else ErrorReasons(errors[..|errors| - 1]) + errors[|errors| - 1].reasons
  }

  function ItemReasons(raws: seq<RawItem>): seq<string> {
    if |raws| == 0 then [] else ItemReasons(raws[..|raws| - 1]) + raws[|raws| - 1].reasons
  }

  function GroupReasons(groups: seq<RawItems>): seq<string> {
    if |groups| == 0 then [] else GroupReasons(groups[..|groups| - 1]) + ItemReasons(groups[|groups| - 1].rejected)
  }

  function RejectedReasons(errors: seq<RawError>): seq<string> {
    if |errors| == 0 then [] else RejectedReasons(errors[..|errors| - 1]) + GroupReasons(errors[|errors| - 1].items)
  }

  predicate DistinctRejections(rs: seq<Rejection>) {
    forall i, j :: 0 <= i < j < |rs| ==> rs[i].sku != rs[j].sku || rs[i].cluster != rs[j].cluster
  }

  datatype Evidence = Evidence(rejected: seq<Rejection>, errorReasons: seq<string>, rejectedReasons: seq<string>)

  /** `_normalize_errors` */
  function NormalizeErrors(rows: seq<Assignment>, ids: seq<ClusterIdentity>, errors: seq<RawError>): (r: Result<Evidence, Invalid>)
    ensures r.Ok? ==> DistinctRejections(r.value.rejected)
  {
    var rejected := ReadErrors(rows, ids, errors);
    if rejected.None? || !DistinctRejections(rejected.value) then Err(InvalidDraftResponse)
    else Ok(Evidence(rejected.value, Normalized(ErrorReasons(errors)), Normalized(RejectedReasons(errors))))
  }

  method ReadItemsLoop(rows: seq<Assignment>, ids: seq<ClusterIdentity>, macro: nat, raws: seq<RawItem>) returns (out: Option<seq<Rejection>>)
    ensures out == ReadItems(rows, ids, macro, raws)
  {
    var output: seq<Rejection> := [];
    for k := 0 to |raws|
      invariant ReadItems(rows, ids, macro, raws[..k]) == Some(output)
    {
      TakeTake(raws, k);
      var item := ReadItem(rows, ids, macro, raws[k]);
      if item.None? {
        ReadItemsFail(rows, ids, macro, raws, k + 1);
        return None;
      }
      output := output + [item.value];
    }
    TakeAll(raws);
    return Some(output);
  }

  lemma {:induction false} ReadItemsFail(rows: seq<Assignment>, ids: seq<ClusterIdentity>, macro: nat, raws: seq<RawItem>, k: nat)
    requires k <= |raws| && ReadItems(rows, ids, macro, raws[..k]).None?
    ensures ReadItems(rows, ids, macro, raws).None?
    decreases |raws| - k
  {
    if k < |raws| {
      TakeTake(raws, k);
      ReadItemsFail(rows, ids, macro, raws, k + 1);
    } else {
      assert raws[..k] == raws;
    }
  }

  method ReadGroupsLoop(rows: seq<Assignment>, ids: seq<ClusterIdentity>, groups: seq<RawItems>) returns (out: Option<seq<Rejection>>)
    ensures out == ReadGroups(rows, ids, groups)
  {
    var output: seq<Rejection> := [];
    for k := 0 to |groups|
      invariant ReadGroups(rows, ids, groups[..k]) == Some(output)
    {
      TakeTake(groups, k);
      if DestinationOf(ids, groups[k].macro).None? {
        ReadGroupsFail(rows, ids, groups, k + 1);
        return None;
      }
      var items := ReadItemsLoop(rows, ids, groups[k].macro, groups[k].rejected);
      if items.None? {
        ReadGroupsFail(rows, ids, groups, k + 1);
        return None;
      }
      output := output + items.value;
    }
    TakeAll(groups);
    return Some(output);
  }

  lemma {:induction false} ReadGroupsFail(rows: seq<Assignment>, ids: seq<ClusterIdentity>, groups: seq<RawItems>, k: nat)
    requires k <= |groups| && ReadGroups(rows, ids, groups[..k]).None?
    ensures ReadGroups(rows, ids, groups).None?
    decreases |groups| - k
  {
    if k < |groups| {
      TakeTake(groups, k);
      ReadGroupsFail(rows, ids, groups, k + 1);
    } else {
      assert groups[..k] == groups;
    }
  }

  method ReadErrorsLoop(rows: seq<Assignment>, ids: seq<ClusterIdentity>, errors: seq<RawError>) returns (out: Result<Evidence, Invalid>)
    ensures out == NormalizeErrors(rows, ids, errors)
  {
    var output: seq<Rejection> := [];
    for k := 0 to |errors|
      invariant ReadErrors(rows, ids, errors[..k]) == Some(output)
    {
      TakeTake(errors, k);
      var groups := ReadGroupsLoop(rows, ids, errors[k].items);
      if groups.None? {
        ReadErrorsFail(rows, ids, errors, k + 1);
        return Err(InvalidDraftResponse);
      }
      output := output + groups.value;
    }
    TakeAll(errors);
    if !DistinctRejections(output) {
      return Err(InvalidDraftResponse);
    }
    var errorReasons := NormalizeReasons(ErrorReasons(errors));
    var rejectedReasons := NormalizeReasons(RejectedReasons(errors));
    return Ok(Evidence(output, errorReasons, rejectedReasons));
  }

  lemma {:induction false} ReadErrorsFail(rows: seq<Assignment>, ids: seq<ClusterIdentity>, errors: seq<RawError>, k: nat)
    requires k <= |errors| && ReadErrors(rows, ids, errors[..k]).None?
    ensures ReadErrors(rows, ids, errors).None?
    decreases |errors| - k
  {
    if k < |errors| {
      TakeTake(errors, k);
      ReadErrorsFail(rows, ids, errors, k + 1);
    } else {
      assert errors[..k] == errors;
    }
  }

  // ---- every rejection names one row ----

  /** A rejection repeats the identity of a row, and no other row answers to the same SKU number there. */
  ghost predicate NamesOneRow(rows: seq<Assignment>, r: Rejection) {
    && WireSku(r.sku).Some?
    && var found := Matches(rows, r.cluster, WireSku(r.sku).value);
      |found| == 1 && RowIdentity(found[0]) == ClaimIdentity(r)
  }

  lemma {:induction false} ItemsNameRows(rows: seq<Assignment>, ids: seq<ClusterIdentity>, macro: nat, raws: seq<RawItem>)
    requires ReadItems(rows, ids, macro, raws).Some?
    ensures forall r <- ReadItems(rows, ids, macro, raws).value :: NamesOneRow(rows, r)
  {
    if |raws| > 0 {
      ItemsNameRows(rows, ids, macro, raws[..|raws| - 1]);
      ItemNamesRow(rows, ids, macro, raws[|raws| - 1]);
    }
  }

  lemma ItemNamesRow(rows: seq<Assignment>, ids: seq<ClusterIdentity>, macro: nat, raw: RawItem)
    requires ReadItem(rows, ids, macro, raw).Some?
    ensures NamesOneRow(rows, ReadItem(rows, ids, macro, raw).value)
  {
    var found := Matches(rows, DestinationOf(ids, macro).value, raw.sku.value);
    assert found[0] in found;
  }

  lemma {:induction false} GroupsNameRows(rows: seq<Assignment>, ids: seq<ClusterIdentity>, groups: seq<RawItems>)
    requires ReadGroups(rows, ids, groups).Some?
    ensures forall r <- ReadGroups(rows, ids, groups).value :: NamesOneRow(rows, r)
  {
    if |groups| > 0 {
      GroupsNameRows(rows, ids, groups[..|groups| - 1]);
      var g := groups[|groups| - 1];
      ItemsNameRows(rows, ids, g.macro, g.rejected);
    }
  }

  lemma {:induction false} ErrorsNameRows(rows: seq<Assignment>, ids: seq<ClusterIdentity>, errors: seq<RawError>)
    requires ReadErrors(rows, ids, errors).Some?
    ensures forall r <- ReadErrors(rows, ids, errors).value :: NamesOneRow(rows, r)
  {
    if |errors| > 0 {
      ErrorsNameRows(rows, ids, errors[..|errors| - 1]);
      GroupsNameRows(rows, ids, errors[|errors| - 1].items);
    }
  }

  // ---- what the errors say ----

  /** A reason that says something. */
  predicate Says(c: string) {
    c != "" && c != "UNSPECIFIED"
  }

  predicate GroupGives(g: RawItems, c: string) {
    exists x <- g.rejected :: c in x.reasons
  }

  predicate ItemsGive(e: RawError, c: string) {
    exists g <- e.items :: GroupGives(g, c)
  }

  /** Some error, or some rejected item of one, gives the reason. */
  predicate Mentions(errors: seq<RawError>, c: string) {
    exists e <- errors :: c in e.reasons || ItemsGive(e, c)
  }

  lemma {:induction false} ErrorReasonsAre(errors: seq<RawError>, c: string)
    ensures c in ErrorReasons(errors) <==> exists e <- errors :: c in e.reasons
  {
    if |errors| > 0 {
      InitLast(errors);
      ErrorReasonsAre(errors[..|errors| - 1], c);
    }
  }

  lemma {:induction false} ItemReasonsAre(raws: seq<RawItem>, c: string)
    ensures c in ItemReasons(raws) <==> exists x <- raws :: c in x.reasons
  {
    if |raws| > 0 {
      InitLast(raws);
      ItemReasonsAre(raws[..|raws| - 1], c);
    }
  }

  lemma {:induction false} GroupReasonsAre(groups: seq<RawItems>, c: string)
    ensures c in GroupReasons(groups) <==> exists g <- groups :: GroupGives(g, c)
  {
    if |groups| > 0 {
      var init, last := groups[..|groups| - 1], groups[|groups| - 1];
      InitLast(groups);
      GroupReasonsAre(init, c);
      ItemReasonsAre(last.rejected, c);
      assert c in GroupReasons(groups) <==> c in GroupReasons(init) || GroupGives(last, c);
    }
  }

  lemma {:induction false} RejectedReasonsAre(errors: seq<RawError>, c: string)
    ensures c in RejectedReasons(errors) <==> exists e <- errors :: ItemsGive(e, c)
  {
    if |errors| > 0 {
      var init, last := errors[..|errors| - 1], errors[|errors| - 1];
      InitLast(errors);
      RejectedReasonsAre(init, c);
      GroupReasonsAre(last.items, c);
      assert c in RejectedReasons(errors) <==> c in RejectedReasons(init) || ItemsGive(last, c);
    }
  }

  /** The reasons read from errors are those they mention that say something. */
  lemma ReasonsAreMentioned(rows: seq<Assignment>, ids: seq<ClusterIdentity>, errors: seq<RawError>, c: string)
    requires NormalizeErrors(rows, ids, errors).Ok?
    ensures var e := NormalizeErrors(rows, ids, errors).value;
      c in e.errorReasons || c in e.rejectedReasons <==> Mentions(errors, c) && Says(c)
  {
    ErrorReasonsAre(errors, c);
    RejectedReasonsAre(errors, c);
  }

  /** One rejected item of an answer, with the macro-cluster it is listed under. */
  datatype Mention = Mention(macro: nat, item: RawItem)

  function ItemMentions(macro: nat, raws: seq<RawItem>): (ms: seq<Mention>)
    ensures |ms| == |raws| && forall i :: 0 <= i < |raws| ==> ms[i] == Mention(macro, raws[i])
  {
    seq(|raws|, i requires 0 <= i < |raws| => Mention(macro, raws[i]))
  }

  function GroupMentions(groups: seq<RawItems>): seq<Mention> {
    if |groups| == 0 then []
    else GroupMentions(groups[..|groups| - 1]) + ItemMentions(groups[|groups| - 1].macro, groups[|groups| - 1].rejected)
  }

  /** All rejected items of an answer, in order. */
  function ErrorMentions(errors: seq<RawError>): seq<Mention> {
    if |errors| == 0 then [] else ErrorMentions(errors[..|errors| - 1]) + GroupMentions(errors[|errors| - 1].items)
  }

  /** The code is the first reason that says something, or the stock one where none does. */
  predicate IsCode(reasons: seq<string>, code: string) {
    || (exists i :: 0 <= i < |reasons| && reasons[i] == code && Says(code) && forall j :: 0 <= j < i ==> !Says(reasons[j]))
    || (code == "OZON_REJECTED" && forall r <- reasons :: !Says(r))
  }

  /** The last identity with the macro-cluster. */
  predicate LastWith(ids: seq<ClusterIdentity>, i: nat, macro: nat) {
    i < |ids| && ids[i].macro == macro && forall j :: i < j < |ids| ==> ids[j].macro != macro
  }

  /** The macro-cluster stands for this cluster: the last one that claims it. */
  ghost predicate StandsFor(ids: seq<ClusterIdentity>, macro: nat, cluster: string) {
    exists i: nat :: LastWith(ids, i, macro) && ids[i].cluster == cluster
  }

  /** The row is the only one of the cluster with that number. */
  predicate OnlyRow(rows: seq<Assignment>, i: nat, cluster: string, sku: nat)
    requires i < |rows|
  {
    && rows[i].cluster == cluster && WireSku(rows[i].sku) == Some(sku)
    && forall j :: 0 <= j < |rows| && j != i ==> !(rows[j].cluster == cluster && WireSku(rows[j].sku) == Some(sku))
  }

  /** The rejection is the reading of the item: it repeats the only row of the candidate that the
      item can mean, with the code the item gives. */
  ghost predicate Reads(rows: seq<Assignment>, ids: seq<ClusterIdentity>, m: Mention, r: Rejection) {
    && m.item.sku.Some? && StandsFor(ids, m.macro, r.cluster)
    && (exists i :: 0 <= i < |rows| && OnlyRow(rows, i, r.cluster, m.item.sku.value) && r.sku == rows[i].sku && r.quantity == rows[i].quantity)
    && IsCode(m.item.reasons, r.code) && !Blank(r.code)
  }

  lemma {:induction false} NormalizedFirst(values: seq<string>)
    ensures IsCode(values, if |Normalized(values)| > 0 then Normalized(values)[0] else "OZON_REJECTED")
  {
    if |values| > 0 {
      var init, last := values[..|values| - 1], values[|values| - 1];
      InitLast(values);
      NormalizedFirst(init);
      if Normalized(init) == [] {
        assert forall r <- init :: !Says(r);
        if Says(last) {
          assert values[|values| - 1] == last && Normalized(values)[0] == last;
        }
      } else {
        var c := Normalized(init)[0];
        assert c in Normalized(init);
        var i :| 0 <= i < |init| && init[i] == c && forall j :: 0 <= j < i ==> !Says(init[j]);
        assert values[i] == c;
      }
    }
  }

  lemma LastWithSnoc(ids: seq<ClusterIdentity>, last: ClusterIdentity, i: nat, macro: nat)
    requires LastWith(ids, i, macro) && last.macro != macro
    ensures LastWith(ids + [last], i, macro)
  {
  }

  lemma {:induction false} DestinationStands(ids: seq<ClusterIdentity>, macro: nat)
    requires DestinationOf(ids, macro).Some?
    ensures StandsFor(ids, macro, DestinationOf(ids, macro).value)
  {
    var init, last := ids[..|ids| - 1], ids[|ids| - 1];
    InitLast(ids);
    if last.macro == macro {
      assert LastWith(ids, |ids| - 1, macro);
    } else {
      DestinationStands(init, macro);
      var i: nat :| LastWith(init, i, macro) && init[i].cluster == DestinationOf(init, macro).value;
      LastWithSnoc(init, last, i, macro);
    }
  }

  lemma StandsForOne(ids: seq<ClusterIdentity>, macro: nat, a: string, b: string)
    requires StandsFor(ids, macro, a) && StandsFor(ids, macro, b)
    ensures a == b
  {
  }

  lemma {:induction false} NoMatches(rows: seq<Assignment>, cluster: string, sku: nat)
    ensures Matches(rows, cluster, sku) == [] <==> forall i :: 0 <= i < |rows| ==> !IsItem(rows[i], cluster, sku)
  {
    if |rows| > 0 {
      NoMatches(rows[1..], cluster, sku);
    }
  }

  lemma HeadIsOnly(rows: seq<Assignment>, cluster: string, sku: nat, row: Assignment)
    requires |rows| > 0 && IsItem(rows[0], cluster, sku)
    ensures (exists i :: 0 <= i < |rows| && rows[i] == row && OnlyRow(rows, i, cluster, sku)) <==>
            rows[0] == row && forall i :: 0 <= i < |rows[1..]| ==> !IsItem(rows[1..][i], cluster, sku)
  {
    forall i | 0 <= i < |rows[1..]| ensures rows[1..][i] == rows[i + 1] {
    }
    if exists i :: 0 <= i < |rows| && rows[i] == row && OnlyRow(rows, i, cluster, sku) {
      var i :| 0 <= i < |rows| && rows[i] == row && OnlyRow(rows, i, cluster, sku);
      assert i == 0;
    }
    if forall i :: 0 <= i < |rows[1..]| ==> !IsItem(rows[1..][i], cluster, sku) {
      forall j | 0 < j < |rows| ensures !IsItem(rows[j], cluster, sku) {
        assert rows[1..][j - 1] == rows[j];
      }
      assert OnlyRow(rows, 0, cluster, sku);
    }
  }

  lemma OnlyInRest(rows: seq<Assignment>, cluster: string, sku: nat, row: Assignment)
    requires |rows| > 0 && !IsItem(rows[0], cluster, sku)
    ensures (exists i :: 0 <= i < |rows| && rows[i] == row && OnlyRow(rows, i, cluster, sku)) <==>
            exists i :: 0 <= i < |rows[1..]| && rows[1..][i] == row && OnlyRow(rows[1..], i, cluster, sku)
  {
    forall i | 0 <= i < |rows[1..]| ensures rows[1..][i] == rows[i + 1] {
    }
    forall i: nat | 0 < i < |rows| ensures OnlyRow(rows, i, cluster, sku) <==> OnlyRow(rows[1..], i - 1, cluster, sku) {
      forall j: nat | 0 < j < |rows| ensures rows[1..][j - 1] == rows[j] {
      }
    }
    if exists i :: 0 <= i < |rows[1..]| && rows[1..][i] == row && OnlyRow(rows[1..], i, cluster, sku) {
      var i: nat :| i < |rows[1..]| && rows[1..][i] == row && OnlyRow(rows[1..], i, cluster, sku);
      assert rows[i + 1] == row && OnlyRow(rows, i + 1, cluster, sku);
    }
  }

  lemma {:induction false} OneMatch(rows: seq<Assignment>, cluster: string, sku: nat, row: Assignment)
    ensures Matches(rows, cluster, sku) == [row] <==> exists i :: 0 <= i < |rows| && rows[i] == row && OnlyRow(rows, i, cluster, sku)
  {
    if |rows| > 0 {
      var rest := rows[1..];
      HeadTail(rows);
      OneMatch(rest, cluster, sku, row);
      NoMatches(rest, cluster, sku);
      if IsItem(rows[0], cluster, sku) {
        HeadIsOnly(rows, cluster, sku, row);
      } else {
        OnlyInRest(rows, cluster, sku, row);
      }
    }
  }

  /** An item can be read in at most one way, and it is read in that way if there is one. */
  lemma ItemIsRead(rows: seq<Assignment>, ids: seq<ClusterIdentity>, m: Mention, r: Rejection)
    ensures ReadItem(rows, ids, m.macro, m.item) == Some(r) <==> Reads(rows, ids, m, r)
  {
    if ReadItem(rows, ids, m.macro, m.item) == Some(r) {
      ReadItemReads(rows, ids, m, r);
    }
    if Reads(rows, ids, m, r) {
      ReadsIsRead(rows, ids, m, r);
    }
  }

  lemma ReadItemReads(rows: seq<Assignment>, ids: seq<ClusterIdentity>, m: Mention, r: Rejection)
    requires ReadItem(rows, ids, m.macro, m.item) == Some(r)
    ensures Reads(rows, ids, m, r)
  {
    DestinationStands(ids, m.macro);
    NormalizedFirst(m.item.reasons);
    var found := Matches(rows, r.cluster, m.item.sku.value);
    assert found == [found[0]];
    OneMatch(rows, r.cluster, m.item.sku.value, found[0]);
  }

  lemma CodeIsOne(reasons: seq<string>, a: string, b: string)
    requires IsCode(reasons, a) && IsCode(reasons, b)
    ensures a == b
  {
    if i :| 0 <= i < |reasons| && reasons[i] == a && Says(a) && forall j :: 0 <= j < i ==> !Says(reasons[j]) {
      assert reasons[i] in reasons;
    }
    if i :| 0 <= i < |reasons| && reasons[i] == b && Says(b) && forall j :: 0 <= j < i ==> !Says(reasons[j]) {
      assert reasons[i] in reasons;
    }
  }

  lemma StandsIsDestination(ids: seq<ClusterIdentity>, macro: nat, cluster: string)
    requires StandsFor(ids, macro, cluster)
    ensures DestinationOf(ids, macro) == Some(cluster)
  {
    var i: nat :| LastWith(ids, i, macro) && ids[i].cluster == cluster;
    assert ids[i] in ids;
    DestinationStands(ids, macro);
    StandsForOne(ids, macro, DestinationOf(ids, macro).value, cluster);
  }

  lemma ReadsIsRead(rows: seq<Assignment>, ids: seq<ClusterIdentity>, m: Mention, r: Rejection)
    requires Reads(rows, ids, m, r)
    ensures ReadItem(rows, ids, m.macro, m.item) == Some(r)
  {
    StandsIsDestination(ids, m.macro, r.cluster);
    var i :| 0 <= i < |rows| && OnlyRow(rows, i, r.cluster, m.item.sku.value) && r.sku == rows[i].sku && r.quantity == rows[i].quantity;
    OneMatch(rows, r.cluster, m.item.sku.value, rows[i]);
    NormalizedFirst(m.item.reasons);
    CodeIsOne(m.item.reasons, Code(m.item.reasons), r.code);
  }

  /** Mention by mention the rejections are its readings. */
  ghost predicate AllRead(rows: seq<Assignment>, ids: seq<ClusterIdentity>, ms: seq<Mention>, rs: seq<Rejection>) {
    |rs| == |ms| && forall i :: 0 <= i < |ms| ==> Reads(rows, ids, ms[i], rs[i])
  }

  lemma AllReadConcat(rows: seq<Assignment>, ids: seq<ClusterIdentity>, a: seq<Mention>, b: seq<Mention>, rs: seq<Rejection>)
    ensures AllRead(rows, ids, a + b, rs) <==>
      |rs| == |a| + |b| && AllRead(rows, ids, a, rs[..|a|]) && AllRead(rows, ids, b, rs[|a|..])
  {
    if |rs| == |a| + |b| {
      forall i | 0 <= i < |a| ensures (a + b)[i] == a[i] && rs[..|a|][i] == rs[i] {
      }
      forall i | 0 <= i < |b| ensures (a + b)[|a| + i] == b[i] && rs[|a|..][i] == rs[|a| + i] {
      }
      if AllRead(rows, ids, a, rs[..|a|]) && AllRead(rows, ids, b, rs[|a|..]) {
        forall i | 0 <= i < |a + b| ensures Reads(rows, ids, (a + b)[i], rs[i]) {
          if i >= |a| {
            assert Reads(rows, ids, b[i - |a|], rs[|a|..][i - |a|]);
          }
        }
      }
      if AllRead(rows, ids, a + b, rs) {
        forall i | 0 <= i < |b| ensures Reads(rows, ids, b[i], rs[|a|..][i]) {
          assert Reads(rows, ids, (a + b)[|a| + i], rs[|a| + i]);
        }
      }
    }
  }

  lemma ItemMentionsSnoc(macro: nat, raws: seq<RawItem>)
    requires |raws| > 0
    ensures ItemMentions(macro, raws) == ItemMentions(macro, raws[..|raws| - 1]) + [Mention(macro, raws[|raws| - 1])]
  {
    OneMore(ItemMentions(macro, raws), ItemMentions(macro, raws[..|raws| - 1]), Mention(macro, raws[|raws| - 1]));
  }

  lemma OneIsRead(rows: seq<Assignment>, ids: seq<ClusterIdentity>, m: Mention, rs: seq<Rejection>)
    ensures AllRead(rows, ids, [m], rs) <==> |rs| == 1 && ReadItem(rows, ids, m.macro, m.item) == Some(rs[0])
  {
    if |rs| == 1 {
      ItemIsRead(rows, ids, m, rs[0]);
    }
  }

  lemma {:induction false} ItemsReadSo(rows: seq<Assignment>, ids: seq<ClusterIdentity>, macro: nat, raws: seq<RawItem>)
    requires ReadItems(rows, ids, macro, raws).Some?
    ensures AllRead(rows, ids, ItemMentions(macro, raws), ReadItems(rows, ids, macro, raws).value)
  {
    if |raws| > 0 {
      var n := |raws| - 1;
      var last := ReadItem(rows, ids, macro, raws[n]).value;
      ItemsReadSo(rows, ids, macro, raws[..n]);
      OneIsRead(rows, ids, Mention(macro, raws[n]), [last]);
      ItemMentionsSnoc(macro, raws);
      JoinReadings(rows, ids, ItemMentions(macro, raws[..n]), [Mention(macro, raws[n])], ReadItems(rows, ids, macro, raws[..n]).value, [last]);
    }
  }

  lemma {:induction false} ItemsAreRead(rows: seq<Assignment>, ids: seq<ClusterIdentity>, macro: nat, raws: seq<RawItem>, rs: seq<Rejection>)
    requires AllRead(rows, ids, ItemMentions(macro, raws), rs)
    ensures ReadItems(rows, ids, macro, raws) == Some(rs)
  {
    if |raws| > 0 {
      var n := |raws| - 1;
      ItemMentionsSnoc(macro, raws);
      SplitReadings(rows, ids, ItemMentions(macro, raws[..n]), [Mention(macro, raws[n])], rs);
      ItemsAreRead(rows, ids, macro, raws[..n], rs[..n]);
      OneIsRead(rows, ids, Mention(macro, raws[n]), rs[n..]);
      InitLast(rs);
      assert rs[n..][0] == rs[n];
    }
  }

  predicate Known(ids: seq<ClusterIdentity>, g: RawItems) {
    exists x <- ids :: x.macro == g.macro
  }

  lemma JoinReadings(rows: seq<Assignment>, ids: seq<ClusterIdentity>, a: seq<Mention>, b: seq<Mention>, before: seq<Rejection>, after: seq<Rejection>)
    requires AllRead(rows, ids, a, before) && AllRead(rows, ids, b, after)
    ensures AllRead(rows, ids, a + b, before + after)
  {
    AllReadConcat(rows, ids, a, b, before + after);
    assert (before + after)[..|a|] == before && (before + after)[|a|..] == after;
  }

  lemma {:induction false} GroupsReadSo(rows: seq<Assignment>, ids: seq<ClusterIdentity>, groups: seq<RawItems>)
    requires ReadGroups(rows, ids, groups).Some?
    ensures (forall g <- groups :: Known(ids, g)) && AllRead(rows, ids, GroupMentions(groups), ReadGroups(rows, ids, groups).value)
  {
    if |groups| > 0 {
      var init, last := groups[..|groups| - 1], groups[|groups| - 1];
      InitLast(groups);
      GroupsReadSo(rows, ids, init);
      var after := ReadItems(rows, ids, last.macro, last.rejected).value;
      ItemsReadSo(rows, ids, last.macro, last.rejected);
      JoinReadings(rows, ids, GroupMentions(init), ItemMentions(last.macro, last.rejected), ReadGroups(rows, ids, init).value, after);
    }
  }

  lemma GroupIsRead(rows: seq<Assignment>, ids: seq<ClusterIdentity>, g: RawItems, rs: seq<Rejection>)
    requires Known(ids, g) && AllRead(rows, ids, ItemMentions(g.macro, g.rejected), rs)
    ensures DestinationOf(ids, g.macro).Some? && ReadItems(rows, ids, g.macro, g.rejected) == Some(rs)
  {
    ItemsAreRead(rows, ids, g.macro, g.rejected, rs);
  }

  lemma GroupsJoin(rows: seq<Assignment>, ids: seq<ClusterIdentity>, init: seq<RawItems>, last: RawItems, before: seq<Rejection>, after: seq<Rejection>)
    requires ReadGroups(rows, ids, init) == Some(before)
    requires DestinationOf(ids, last.macro).Some? && ReadItems(rows, ids, last.macro, last.rejected) == Some(after)
    ensures ReadGroups(rows, ids, init + [last]) == Some(before + after)
  {
    SnocInit(init, last);
  }

  lemma SplitReadings(rows: seq<Assignment>, ids: seq<ClusterIdentity>, a: seq<Mention>, b: seq<Mention>, rs: seq<Rejection>)
    requires AllRead(rows, ids, a + b, rs)
    ensures |rs| == |a| + |b| && AllRead(rows, ids, a, rs[..|a|]) && AllRead(rows, ids, b, rs[|a|..])
    ensures rs == rs[..|a|] + rs[|a|..]
  {
    AllReadConcat(rows, ids, a, b, rs);
  }

  lemma {:induction false} GroupsAreRead(rows: seq<Assignment>, ids: seq<ClusterIdentity>, groups: seq<RawItems>, rs: seq<Rejection>)
    requires (forall g <- groups :: Known(ids, g)) && AllRead(rows, ids, GroupMentions(groups), rs)
    ensures ReadGroups(rows, ids, groups) == Some(rs)
  {
    if |groups| > 0 {
      var init, last := groups[..|groups| - 1], groups[|groups| - 1];
      var n := |GroupMentions(init)|;
      InitLast(groups);
      SplitReadings(rows, ids, GroupMentions(init), ItemMentions(last.macro, last.rejected), rs);
      GroupsAreRead(rows, ids, init, rs[..n]);
      GroupIsRead(rows, ids, last, rs[n..]);
      GroupsJoin(rows, ids, init, last, rs[..n], rs[n..]);
    }
  }

  ghost predicate AllKnown(ids: seq<ClusterIdentity>, errors: seq<RawError>) {
    forall e <- errors, g <- e.items :: Known(ids, g)
  }

  lemma {:induction false} ErrorsReadSo(rows: seq<Assignment>, ids: seq<ClusterIdentity>, errors: seq<RawError>)
    requires ReadErrors(rows, ids, errors).Some?
    ensures AllKnown(ids, errors) && AllRead(rows, ids, ErrorMentions(errors), ReadErrors(rows, ids, errors).value)
  {
    if |errors| > 0 {
      var init, last := errors[..|errors| - 1], errors[|errors| - 1];
      InitLast(errors);
      ErrorsReadSo(rows, ids, init);
      GroupsReadSo(rows, ids, last.items);
      JoinReadings(rows, ids, ErrorMentions(init), GroupMentions(last.items), ReadErrors(rows, ids, init).value, ReadGroups(rows, ids, last.items).value);
    }
  }

  lemma {:induction false} ErrorsAreRead(rows: seq<Assignment>, ids: seq<ClusterIdentity>, errors: seq<RawError>, rs: seq<Rejection>)
    requires AllKnown(ids, errors) && AllRead(rows, ids, ErrorMentions(errors), rs)
    ensures ReadErrors(rows, ids, errors) == Some(rs)
  {
    if |errors| > 0 {
      var init, last := errors[..|errors| - 1], errors[|errors| - 1];
      var n := |ErrorMentions(init)|;
      InitLast(errors);
      SplitReadings(rows, ids, ErrorMentions(init), GroupMentions(last.items), rs);
      ErrorsAreRead(rows, ids, init, rs[..n]);
      GroupsAreRead(rows, ids, last.items, rs[n..]);
    }
  }

  /** Errors are readable exactly when every group names a known cluster, every rejected item can be
      read, and no two mean the same row; the rejections are then these readings, in order. */
  lemma RejectionsAreRead(rows: seq<Assignment>, ids: seq<ClusterIdentity>, errors: seq<RawError>)
    ensures NormalizeErrors(rows, ids, errors).Ok? <==>
      AllKnown(ids, errors) && exists rs :: AllRead(rows, ids, ErrorMentions(errors), rs) && DistinctRejections(rs)
    ensures NormalizeErrors(rows, ids, errors).Ok? ==>
      AllRead(rows, ids, ErrorMentions(errors), NormalizeErrors(rows, ids, errors).value.rejected)
  {
    var read := ReadErrors(rows, ids, errors);
    if read.Some? {
      ErrorsReadSo(rows, ids, errors);
    }
    if AllKnown(ids, errors) {
      forall rs | AllRead(rows, ids, ErrorMentions(errors), rs) ensures read == Some(rs) {
        ErrorsAreRead(rows, ids, errors, rs);
      }
    }
  }

  // ---- accepted rows ----

  predicate Refused(rejected: seq<Rejection>, row: Assignment) {
    exists r <- rejected :: r.sku == row.sku && r.cluster == row.cluster
  }

  function Kept(rows: seq<Assignment>, rejected: seq<Rejection>): (r: seq<Assignment>)
    ensures forall x :: x in r <==> x in rows && !Refused(rejected, x)
  {
    if |rows| == 0 then []
    else
      var rest := Kept(rows[1..], rejected);
      HeadTail(rows);
      if Refused(rejected, rows[0]) then rest else [rows[0]] + rest
  }

  function Cut(rows: seq<Assignment>, rejected: seq<Rejection>): (r: seq<Assignment>)
    ensures forall x :: x in r <==> x in rows && Refused(rejected, x)
  {
    if |rows| == 0 then []
    else
      var rest := Cut(rows[1..], rejected);
      HeadTail(rows);
      if Refused(rejected, rows[0]) then [rows[0]] + rest else rest
  }

  lemma {:induction false} KeptAndCut(rows: seq<Assignment>, rejected: seq<Rejection>)
    ensures multiset(Kept(rows, rejected)) + multiset(Cut(rows, rejected)) == multiset(rows)
    ensures multiset(Identities(Kept(rows, rejected))) + multiset(Identities(Cut(rows, rejected))) == multiset(Identities(rows))
  {
    if |rows| > 0 {
      KeptAndCut(rows[1..], rejected);
      HeadTail(rows);
      IdentitiesHead(rows[0], rows[1..]);
      IdentitiesHead(rows[0], Kept(rows[1..], rejected));
      IdentitiesHead(rows[0], Cut(rows[1..], rejected));
    }
  }

  lemma IdentitiesHead(row: Assignment, rest: seq<Assignment>)
    ensures Identities([row] + rest) == [RowIdentity(row)] + Identities(rest)
  {
  }

  lemma {:induction false} TwoMatches(rows: seq<Assignment>, cluster: string, sku: nat, i: nat, j: nat)
    requires i < j < |rows| && IsItem(rows[i], cluster, sku) && IsItem(rows[j], cluster, sku)
    ensures |Matches(rows, cluster, sku)| >= 2
  {
    if i == 0 {
      assert rows[1..][j - 1] in Matches(rows[1..], cluster, sku);
    } else {
      TwoMatches(rows[1..], cluster, sku, i - 1, j - 1);
    }
  }

  lemma CutRow(rows: seq<Assignment>, rejected: seq<Rejection>, row: Assignment) returns (r: Rejection)
    requires row in rows && Refused(rejected, row) && forall x <- rejected :: NamesOneRow(rows, x)
    ensures r in rejected && r.sku == row.sku && r.cluster == row.cluster && ClaimIdentity(r) == RowIdentity(row)
    ensures WireSku(r.sku).Some? && IsItem(row, r.cluster, WireSku(r.sku).value) && |Matches(rows, r.cluster, WireSku(r.sku).value)| == 1
  {
    r :| r in rejected && r.sku == row.sku && r.cluster == row.cluster;
    assert NamesOneRow(rows, r);
    var found := Matches(rows, r.cluster, WireSku(r.sku).value);
    assert row in found;
  }

  /** Where each SKU number occurs once, so does each identity of a cut row. */
  lemma {:induction false} CutDiffers(all: seq<Assignment>, rows: seq<Assignment>, rejected: seq<Rejection>, first: nat)
    requires forall x <- rejected :: NamesOneRow(all, x)
    requires first + |rows| == |all| && rows == all[first..]
    ensures NoDup(Identities(Cut(rows, rejected)))
  {
    if |rows| > 0 {
      CutDiffers(all, rows[1..], rejected, first + 1);
      var rest := Cut(rows[1..], rejected);
      if Refused(rejected, rows[0]) {
        forall j | 0 <= j < |rest| ensures RowIdentity(rest[j]) != RowIdentity(rows[0]) {
          OnlyOneCut(all, rows, rejected, first, rest[j]);
        }
        IdentitiesHead(rows[0], rest);
        NoDupHead(RowIdentity(rows[0]), Identities(rest));
      }
    }
  }

  lemma NoDupHead<T>(x: T, xs: seq<T>)
    requires NoDup(xs) && x !in xs
    ensures NoDup([x] + xs)
  {
  }

  lemma OnlyOneCut(all: seq<Assignment>, rows: seq<Assignment>, rejected: seq<Rejection>, first: nat, other: Assignment)
    requires forall x <- rejected :: NamesOneRow(all, x)
    requires |rows| > 0 && first + |rows| == |all| && rows == all[first..]
    requires Refused(rejected, rows[0]) && other in rows[1..]
    ensures RowIdentity(other) != RowIdentity(rows[0])
  {
    assert rows[0] == all[first];
    var r := CutRow(all, rejected, rows[0]);
    var j :| 0 <= j < |rows[1..]| && rows[1..][j] == other;
    assert all[first + 1 + j] == other;
    if RowIdentity(other) == RowIdentity(rows[0]) {
      TwoMatches(all, r.cluster, WireSku(r.sku).value, first, first + 1 + j);
    }
  }

  lemma ClaimsDiffer(rejected: seq<Rejection>)
    requires DistinctRejections(rejected)
    ensures NoDup(Claims(rejected))
  {
  }

  lemma ClaimsAreCut(rows: seq<Assignment>, rejected: seq<Rejection>)
    requires DistinctRejections(rejected) && forall r <- rejected :: NamesOneRow(rows, r)
    ensures multiset(Claims(rejected)) == multiset(Identities(Cut(rows, rejected)))
  {
    var cut := Cut(rows, rejected);
    ClaimsDiffer(rejected);
    assert rows[0..] == rows;
    CutDiffers(rows, rows, rejected, 0);
    forall id | id in Claims(rejected) ensures id in Identities(cut) {
      var i :| 0 <= i < |rejected| && ClaimIdentity(rejected[i]) == id;
      ClaimIsCut(rows, rejected, rejected[i]);
    }
    forall id | id in Identities(cut) ensures id in Claims(rejected) {
      var i :| 0 <= i < |cut| && RowIdentity(cut[i]) == id;
      assert cut[i] in cut;
      var r := CutRow(rows, rejected, cut[i]);
      var j :| 0 <= j < |rejected| && rejected[j] == r;
      assert Claims(rejected)[j] == id;
    }
    SameByElements(Claims(rejected), Identities(cut));
  }

  lemma ClaimIsCut(rows: seq<Assignment>, rejected: seq<Rejection>, r: Rejection)
    requires r in rejected && NamesOneRow(rows, r)
    ensures ClaimIdentity(r) in Identities(Cut(rows, rejected))
  {
    var row := Matches(rows, r.cluster, WireSku(r.sku).value)[0];
    assert row in Matches(rows, r.cluster, WireSku(r.sku).value);
    assert RowIdentity(row) == ClaimIdentity(r);
    assert row in Cut(rows, rejected);
    var j :| 0 <= j < |Cut(rows, rejected)| && Cut(rows, rejected)[j] == row;
    assert Identities(Cut(rows, rejected))[j] == ClaimIdentity(r);
  }

  /** The kept and the rejected rows partition the candidate's rows; rows need not be distinct. */
  lemma KeptAndRejectedPartition(rows: seq<Assignment>, rejected: seq<Rejection>)
    requires DistinctRejections(rejected) && forall r <- rejected :: NamesOneRow(rows, r)
    ensures multiset(Kept(rows, rejected)) <= multiset(rows)
    ensures multiset(Identities(Kept(rows, rejected))) + multiset(Claims(rejected)) == multiset(Identities(rows))
  {
    KeptAndCut(rows, rejected);
    ClaimsAreCut(rows, rejected);
  }

  // ---- a draft's status ----

  function Units(ids: seq<Identity>): nat {
    if |ids| == 0 then 0 else ids[0].quantity + Units(ids[1..])
  }

  lemma {:induction false} UnitsConcat(a: seq<Identity>, b: seq<Identity>)
    ensures Units(a + b) == Units(a) + Units(b)
  {
    if |a| == 0 {
      assert a + b == b;
    } else {
      ConcatTail(a, b);
      UnitsConcat(a[1..], b);
    }
  }

  lemma UnitsWithout(b: seq<Identity>, i: nat)
    requires i < |b|
    ensures Units(b) == b[i].quantity + Units(b[..i] + b[i + 1..])
  {
    SplitAt(b, i);
    UnitsConcat(b[..i] + [b[i]], b[i + 1..]);
    UnitsConcat(b[..i], [b[i]]);
    UnitsConcat(b[..i], b[i + 1..]);
  }

  lemma {:induction false} UnitsByMultiset(a: seq<Identity>, b: seq<Identity>)
    requires multiset(a) == multiset(b)
    ensures Units(a) == Units(b)
  {
    if |a| == 0 {
      NothingLeft(b);
    } else {
      var i := SharedElement(a, b);
      WithoutHead(a, b, i);
      UnitsByMultiset(a[1..], b[..i] + b[i + 1..]);
      UnitsWithout(b, i);
    }
  }

  datatype DraftInfo = DraftInfo(failed: bool, accepted: seq<Assignment>, rejected: seq<Rejection>,
                                 clusters: seq<ClusterRows>, errorReasons: seq<string>, rejectedReasons: seq<string>)

  /** `normalize_draft_info`, for an answer in a terminal status. */
  function ReadInfo(rows: seq<Assignment>, ids: seq<ClusterIdentity>, failed: bool, errors: seq<RawError>, clusters: seq<ClusterRows>)
    : (r: Result<DraftInfo, Invalid>)
    ensures r.Ok? ==> NormalizeErrors(rows, ids, errors).Ok? && r.value.rejected == NormalizeErrors(rows, ids, errors).value.rejected
    ensures r.Ok? && !failed ==> r.value.accepted == Kept(rows, r.value.rejected)
  {
    var evidence := NormalizeErrors(rows, ids, errors);
    if evidence.Err? || exists c <- clusters :: DestinationOf(ids, c.macro).None? then Err(InvalidDraftResponse)
    else
      var e := evidence.value;
      var accepted := if failed then [] else Kept(rows, e.rejected);
      if !failed && Units(Identities(accepted)) + Units(Claims(e.rejected)) != Units(Identities(rows)) then Err(InvalidDraftResponse)
      else Ok(DraftInfo(failed, accepted, e.rejected, clusters, e.errorReasons, e.rejectedReasons))
  }

  lemma RejectionsNameRows(rows: seq<Assignment>, ids: seq<ClusterIdentity>, errors: seq<RawError>)
    requires NormalizeErrors(rows, ids, errors).Ok?
    ensures forall r <- NormalizeErrors(rows, ids, errors).value.rejected :: NamesOneRow(rows, r)
    ensures DistinctRejections(NormalizeErrors(rows, ids, errors).value.rejected)
  {
    ErrorsNameRows(rows, ids, errors);
  }

  lemma UnitsAreConserved(rows: seq<Assignment>, ids: seq<ClusterIdentity>, errors: seq<RawError>)
    requires NormalizeErrors(rows, ids, errors).Ok?
    ensures var rejected := NormalizeErrors(rows, ids, errors).value.rejected;
      Units(Identities(Kept(rows, rejected))) + Units(Claims(rejected)) == Units(Identities(rows))
  {
    var rejected := NormalizeErrors(rows, ids, errors).value.rejected;
    RejectionsNameRows(rows, ids, errors);
    KeptAndRejectedPartition(rows, rejected);
    var kept, claims := Identities(Kept(rows, rejected)), Claims(rejected);
    UnitsConcat(kept, claims);
    UnitsByMultiset(kept + claims, Identities(rows));
  }

  /** The quantity check of `normalize_draft_info` can never fail: a status is unreadable only
      because its errors are, or because it speaks about an unknown cluster. */
  lemma QuantityIsConserved(rows: seq<Assignment>, ids: seq<ClusterIdentity>, failed: bool, errors: seq<RawError>, clusters: seq<ClusterRows>)
    ensures ReadInfo(rows, ids, failed, errors, clusters).Ok? <==>
      NormalizeErrors(rows, ids, errors).Ok? && forall c <- clusters :: DestinationOf(ids, c.macro).Some?
  {
    if NormalizeErrors(rows, ids, errors).Ok? {
      UnitsAreConserved(rows, ids, errors);
    }
  }

  // ---- warehouses ----

  datatype NoSelection = Contradiction | NoWarehouse

  function RowsOf(clusters: seq<ClusterRows>, macro: nat): seq<WarehouseRow> {
    if |clusters| == 0 then []
    else RowsOf(clusters[..|clusters| - 1], macro) +
         if clusters[|clusters| - 1].macro == macro then clusters[|clusters| - 1].rows else []
  }

  /** The first eligible storage warehouse, in the order of the answer. */
  function FirstEligible(rows: seq<WarehouseRow>): (w: Option<nat>)
    ensures w.Some? <==> exists r <- rows :: r.eligible
  {
    if |rows| == 0 then None
    else
      HeadTail(rows);
      if rows[0].eligible then Some(rows[0].id) else FirstEligible(rows[1..])
  }

  /** `_selected_warehouses` */
  function Selected(clusters: seq<ClusterRows>, ids: seq<ClusterIdentity>): (r: Result<seq<nat>, NoSelection>)
    ensures r.Ok? <==> forall x <- ids :: Servable(RowsOf(clusters, x.macro))
    ensures r.Ok? ==> |r.value| == |ids|
  {
    if |ids| == 0 then Ok([])
    else
      var last := ids[|ids| - 1];
      InitLast(ids);
      var init := Selected(clusters, ids[..|ids| - 1]);
      var rows := RowsOf(clusters, last.macro);
      if init.Err? then init
      else if exists w <- rows :: w.eligible && w.contradicted then Err(Contradiction)
      else if FirstEligible(rows).None? then Err(NoWarehouse)
      else Ok(init.value + [FirstEligible(rows).value])
  }

  /** The first eligible warehouse of these rows. */
  ghost predicate FirstOpen(rows: seq<WarehouseRow>, id: nat) {
    exists k :: 0 <= k < |rows| && rows[k].eligible && rows[k].id == id && forall j :: 0 <= j < k ==> !rows[j].eligible
  }

  lemma {:induction false} FirstEligibleIsFirst(rows: seq<WarehouseRow>)
    requires FirstEligible(rows).Some?
    ensures FirstOpen(rows, FirstEligible(rows).value)
  {
    if !rows[0].eligible {
      FirstEligibleIsFirst(rows[1..]);
      var k :| 0 <= k < |rows[1..]| && rows[1..][k].eligible && rows[1..][k].id == FirstEligible(rows).value
        && forall j :: 0 <= j < k ==> !rows[1..][j].eligible;
      assert rows[k + 1].eligible;
      forall j | 0 <= j < k + 1 ensures !rows[j].eligible {
        if j > 0 {
          assert rows[1..][j - 1] == rows[j];
        }
      }
    }
  }

  /** Every cluster is given its first eligible warehouse. */
  lemma {:induction false} SelectedAreFirst(clusters: seq<ClusterRows>, ids: seq<ClusterIdentity>)
    requires Selected(clusters, ids).Ok?
    ensures forall i :: 0 <= i < |ids| ==> FirstOpen(RowsOf(clusters, ids[i].macro), Selected(clusters, ids).value[i])
  {
    if |ids| > 0 {
      SelectedAreFirst(clusters, ids[..|ids| - 1]);
      FirstEligibleIsFirst(RowsOf(clusters, ids[|ids| - 1].macro));
    }
  }

  predicate Servable(rows: seq<WarehouseRow>) {
    (exists w <- rows :: w.eligible) && forall w <- rows :: w.eligible ==> !w.contradicted
  }

  // ---- answers and verdicts of one validation ----

  datatype ClientError = ContextChanged | Limited | NoAnswer | BadAnswer | Failure

  datatype DraftField = NoDraft | BadDraft | HasDraft(id: nat)

  datatype CreateReply = CreateCrash | CreateFailed(code: ClientError) | Answered(draft: DraftField, errors: Option<seq<RawError>>)

  datatype InfoReply = InfoCrash | InfoFailed(code: ClientError) | InProgress | BadInfo
    | Info(failed: bool, errors: seq<RawError>, clusters: seq<ClusterRows>)

  datatype SlotReply = SlotCrash | SlotFailed(code: ClientError) | BadSlots | DateRange | RequestRejected | Slots(slots: seq<Slot>)

  /** A step of one validation: an exception, the final evidence, or go on. */
  datatype Verdict<T> = Raises | Finished(v: Validation) | GoOn(next: T)

  /** `_option`; evidence with a blank reason code cannot be built. */
  function Build(o: Offer, state: ValidationState, reasons: seq<string>, draft: Option<nat>,
                 accepted: seq<Assignment>, rejected: seq<Rejection>, slots: seq<Slot>): Option<Validation> {
    if exists r <- reasons :: Blank(r) then None
    else Some(Validation(o.id, draft, state, o.kind, o.seller, o.point, accepted, rejected, slots, reasons))
  }

  /** Evidence without rows, for a reason of the service's own. */
  function Plain(o: Offer, state: ValidationState, reason: string, draft: Option<nat>): Validation {
    Validation(o.id, draft, state, o.kind, o.seller, o.point, [], [], [], [reason])
  }

  function FailureOf(o: Offer, code: ClientError, draft: Option<nat>): Validation {
    if code.Limited? then Plain(o, RateLimited, "OZON_RATE_LIMITED", draft) else Plain(o, Unavailable, "OZON_UNAVAILABLE", draft)
  }

  function Unreadable(o: Offer, draft: Option<nat>): Validation {
    Plain(o, Unavailable, "OZON_INVALID_DRAFT_RESPONSE", draft)
  }

  function CreateFailure(o: Offer, code: ClientError): Verdict<Evidence> {
    match code
    case ContextChanged => Raises
    case Limited => Finished(FailureOf(o, code, None))
    case NoAnswer => Finished(Plain(o, OutcomeUnknown, "DRAFT_CREATE_OUTCOME_UNKNOWN", None))
    case BadAnswer => Finished(Unreadable(o, None))
    case Failure => Finished(FailureOf(o, code, None))
  }

  /** What the answer to a create request decides, after its draft has been remembered. */
  function JudgeCreate(o: Offer, ids: seq<ClusterIdentity>, reply: CreateReply): Verdict<Evidence> {
    match reply
    case CreateCrash => Raises
    case CreateFailed(code) => CreateFailure(o, code)
    case Answered(draft, errors) =>
      if draft.BadDraft? || errors.None? then Finished(Unreadable(o, None))
      else
        var evidence := NormalizeErrors(o.rows, ids, errors.value);
        if evidence.Err? then Finished(Unreadable(o, None))
        else if draft.HasDraft? then GoOn(evidence.value)
        else
          var reasons := Normalized(evidence.value.errorReasons + evidence.value.rejectedReasons);
          if |evidence.value.rejected| == 0 && |reasons| == 0 then Finished(Unreadable(o, None))
          else
            var v := Build(o, Rejected, ["OZON_REJECTED_CANDIDATE"] + reasons, None, [], evidence.value.rejected, []);
            if v.Some? then Finished(v.value) else Finished(Unreadable(o, None))
  }

  /** What one answer to a status request decides; None means that the draft is still in progress. */
  function JudgeInfo(o: Offer, ids: seq<ClusterIdentity>, draft: nat, reply: InfoReply): Verdict<Option<DraftInfo>> {
    match reply
    case InfoCrash => Raises
    case InfoFailed(code) => if code.ContextChanged? then Raises else Finished(FailureOf(o, code, Some(draft)))
    case InProgress => GoOn(None)
    case BadInfo => Finished(Unreadable(o, Some(draft)))
    case Info(failed, errors, clusters) =>
      var info := ReadInfo(o.rows, ids, failed, errors, clusters);
      if info.Ok? then GoOn(Some(info.value)) else Finished(Unreadable(o, Some(draft)))
  }

  function Finish<T>(v: Option<Validation>): Verdict<T> {
    if v.Some? then Finished(v.value) else Raises
  }

  /** What a terminal status decides; otherwise the time slots are asked for. */
  function JudgeStatus(o: Offer, ids: seq<ClusterIdentity>, draft: nat, info: DraftInfo, causes: seq<string>): Verdict<seq<nat>> {
    if info.failed || |info.accepted| == 0 then
      Finish(Build(o, Rejected, ["OZON_REJECTED_CANDIDATE"] + causes, Some(draft), [], info.rejected, []))
    else
      match Selected(info.clusters, ids)
      case Ok(selected) => GoOn(selected)
      case Err(Contradiction) => Finish(Build(o, Unavailable, ["OZON_INVALID_DRAFT_RESPONSE"], Some(draft), info.accepted, info.rejected, []))
      case Err(NoWarehouse) => Finish(Build(o, Unavailable, ["OZON_STORAGE_WAREHOUSE_UNAVAILABLE"], Some(draft), info.accepted, info.rejected, []))
  }

  /** What the answer to the time-slot request decides. */
  function JudgeSlots(o: Offer, draft: nat, info: DraftInfo, causes: seq<string>, reply: SlotReply): Verdict<()> {
    match reply
    case SlotCrash => Raises
    case SlotFailed(code) => if code.ContextChanged? then Raises else Finished(FailureOf(o, code, Some(draft)))
    case BadSlots => Finished(Unreadable(o, Some(draft)))
    case DateRange => Finish(Build(o, Unavailable, ["TIMESLOT_DATE_RANGE_UNSUPPORTED"], Some(draft), info.accepted, info.rejected, []))
    case RequestRejected => Finish(Build(o, Unavailable, ["OZON_TIMESLOT_REQUEST_REJECTED"], Some(draft), info.accepted, info.rejected, []))
    case Slots(slots) =>
      if |info.rejected| > 0 then
        Finish(Build(o, Partial, ["OZON_PARTIAL_ACCEPTANCE"] + causes + (if |slots| == 0 then ["NO_TIMESLOT"] else []),
                     Some(draft), info.accepted, info.rejected, slots))
      else if |slots| == 0 then Finish(Build(o, NoTimeslot, Normalized(causes + ["NO_TIMESLOT"]), Some(draft), info.accepted, [], []))
      else Finish(Build(o, Accepted, causes, Some(draft), info.accepted, [], slots))
  }

  // ---- every verdict is honest about the candidate ----

  /** Rows read from an answer about this candidate. */
  ghost predicate Honest(o: Offer, accepted: seq<Assignment>, rejected: seq<Rejection>) {
    && DistinctRejections(rejected) && (forall r <- rejected :: NamesOneRow(o.rows, r))
    && (accepted == [] || accepted == Kept(o.rows, rejected))
  }

  lemma HonestExplains(o: Offer, accepted: seq<Assignment>, rejected: seq<Rejection>)
    requires Honest(o, accepted, rejected)
    ensures Explains(o.rows, accepted, rejected)
    ensures accepted == Kept(o.rows, rejected) ==>
      multiset(Identities(accepted)) + multiset(Claims(rejected)) == multiset(Identities(o.rows))
  {
    KeptAndRejectedPartition(o.rows, rejected);
    var kept := multiset(Identities(Kept(o.rows, rejected)));
    assert multiset(Claims(rejected)) <= kept + multiset(Claims(rejected));
  }

  lemma BuildIsGood(o: Offer, state: ValidationState, reasons: seq<string>, draft: Option<nat>,
                    accepted: seq<Assignment>, rejected: seq<Rejection>, slots: seq<Slot>)
    requires Honest(o, accepted, rejected)
    requires state.Accepted? || state.Partial? || state.NoTimeslot? ==> |accepted| > 0
    requires StateFits(Validation(o.id, draft, state, o.kind, o.seller, o.point, accepted, rejected, slots, reasons))
    ensures var v := Build(o, state, reasons, draft, accepted, rejected, slots); v.Some? ==> Good(o, v.value)
  {
    HonestExplains(o, accepted, rejected);
  }

  lemma PlainIsGood(o: Offer, state: ValidationState, reason: string, draft: Option<nat>)
    requires !state.Accepted? && !state.Partial? && !state.NoTimeslot?
    ensures Good(o, Plain(o, state, reason, draft))
  {
    HonestExplains(o, [], []);
  }

  lemma CreateIsGood(o: Offer, ids: seq<ClusterIdentity>, reply: CreateReply)
    ensures JudgeCreate(o, ids, reply).Finished? ==> Good(o, JudgeCreate(o, ids, reply).v)
  {
    PlainIsGood(o, Unavailable, "OZON_INVALID_DRAFT_RESPONSE", None);
    match reply
    case CreateCrash =>
    case CreateFailed(code) => CreateFailureIsGood(o, code);
    case Answered(draft, errors) =>
      if !draft.BadDraft? && errors.Some? && NormalizeErrors(o.rows, ids, errors.value).Ok? {
        RefusalIsGood(o, ids, errors.value);
      }
  }

  lemma CreateFailureIsGood(o: Offer, code: ClientError)
    ensures CreateFailure(o, code).Finished? ==> Good(o, CreateFailure(o, code).v)
  {
    forall state: ValidationState, reason: string | state.Unavailable? || state.RateLimited? || state.OutcomeUnknown?
      ensures Good(o, Plain(o, state, reason, None)) {
      PlainIsGood(o, state, reason, None);
    }
  }

  lemma RefusalIsGood(o: Offer, ids: seq<ClusterIdentity>, errors: seq<RawError>)
    requires NormalizeErrors(o.rows, ids, errors).Ok?
    ensures var e := NormalizeErrors(o.rows, ids, errors).value;
      var v := Build(o, Rejected, ["OZON_REJECTED_CANDIDATE"] + Normalized(e.errorReasons + e.rejectedReasons), None, [], e.rejected, []);
      v.Some? ==> Good(o, v.value)
  {
    var e := NormalizeErrors(o.rows, ids, errors).value;
    RejectionsNameRows(o.rows, ids, errors);
    BuildIsGood(o, Rejected, ["OZON_REJECTED_CANDIDATE"] + Normalized(e.errorReasons + e.rejectedReasons), None, [], e.rejected, []);
  }

  lemma GoOnHasDraft(o: Offer, ids: seq<ClusterIdentity>, reply: CreateReply)
    ensures JudgeCreate(o, ids, reply).GoOn? ==> reply.Answered? && reply.draft.HasDraft?
  {
  }

  /** A status that was read from an answer about this candidate. */
  ghost predicate HonestInfo(o: Offer, info: DraftInfo) {
    Honest(o, info.accepted, info.rejected)
  }

  lemma InfoIsHonest(o: Offer, ids: seq<ClusterIdentity>, draft: nat, reply: InfoReply)
    ensures var verdict := JudgeInfo(o, ids, draft, reply);
      && (verdict.Finished? ==> Good(o, verdict.v))
      && (verdict.GoOn? && verdict.next.Some? ==> HonestInfo(o, verdict.next.value))
  {
    PlainIsGood(o, Unavailable, "OZON_INVALID_DRAFT_RESPONSE", Some(draft));
    PlainIsGood(o, Unavailable, "OZON_UNAVAILABLE", Some(draft));
    PlainIsGood(o, RateLimited, "OZON_RATE_LIMITED", Some(draft));
    if reply.Info? && NormalizeErrors(o.rows, ids, reply.errors).Ok? {
      RejectionsNameRows(o.rows, ids, reply.errors);
    }
  }

  lemma StatusIsGood(o: Offer, ids: seq<ClusterIdentity>, draft: nat, info: DraftInfo, causes: seq<string>)
    requires HonestInfo(o, info)
    ensures var verdict := JudgeStatus(o, ids, draft, info, causes);
      && (verdict.Finished? ==> Good(o, verdict.v))
      && (verdict.GoOn? ==> |info.accepted| > 0)
  {
    BuildIsGood(o, Rejected, ["OZON_REJECTED_CANDIDATE"] + causes, Some(draft), [], info.rejected, []);
    BuildIsGood(o, Unavailable, ["OZON_INVALID_DRAFT_RESPONSE"], Some(draft), info.accepted, info.rejected, []);
    BuildIsGood(o, Unavailable, ["OZON_STORAGE_WAREHOUSE_UNAVAILABLE"], Some(draft), info.accepted, info.rejected, []);
  }

  lemma SlotsAreGood(o: Offer, draft: nat, info: DraftInfo, causes: seq<string>, reply: SlotReply)
    requires HonestInfo(o, info) && |info.accepted| > 0
    ensures var verdict := JudgeSlots(o, draft, info, causes, reply);
      !verdict.GoOn? && (verdict.Finished? ==> Good(o, verdict.v))
  {
    match reply
    case SlotCrash =>
    case SlotFailed(code) =>
      PlainIsGood(o, Unavailable, "OZON_UNAVAILABLE", Some(draft));
      PlainIsGood(o, RateLimited, "OZON_RATE_LIMITED", Some(draft));
    case BadSlots => PlainIsGood(o, Unavailable, "OZON_INVALID_DRAFT_RESPONSE", Some(draft));
    case DateRange => BuildIsGood(o, Unavailable, ["TIMESLOT_DATE_RANGE_UNSUPPORTED"], Some(draft), info.accepted, info.rejected, []);
    case RequestRejected => BuildIsGood(o, Unavailable, ["OZON_TIMESLOT_REQUEST_REJECTED"], Some(draft), info.accepted, info.rejected, []);
    case Slots(slots) =>
      if |info.rejected| > 0 {
        BuildIsGood(o, Partial, ["OZON_PARTIAL_ACCEPTANCE"] + causes + (if |slots| == 0 then ["NO_TIMESLOT"] else []),
                    Some(draft), info.accepted, info.rejected, slots);
      } else if |slots| == 0 {
        BuildIsGood(o, NoTimeslot, Normalized(causes + ["NO_TIMESLOT"]), Some(draft), info.accepted, [], []);
      } else {
        BuildIsGood(o, Accepted, causes, Some(draft), info.accepted, [], slots);
      }
  }

  // ---- what the answers decide ----

  /** The answers one validation was given: to its create request if it sent one, the last one about
      the draft's status, and to the time-slot request; whether its caller cancelled it; and the
      reason codes it was told. */
  datatype Heard = Heard(create: Option<CreateReply>, status: Option<InfoReply>, slots: Option<SlotReply>, cancelled: bool, reasons: seq<string>)

  /** A create request that brought this draft, or none because the draft was resumed. */
  predicate Drafted(create: Option<CreateReply>, draft: nat) {
    create.None? || (create.value.Answered? && create.value.draft == HasDraft(draft))
  }

  /** The draft shown is the one that the create request brought; no status without one. */
  predicate DraftShown(heard: Heard, v: Validation) {
    (v.draft.Some? ==> Drafted(heard.create, v.draft.value)) && (heard.status.Some? ==> v.draft.Some?)
  }

  /** The reasons that the answer to the create request gives are among these. */
  ghost predicate CreateGives(create: Option<CreateReply>, reasons: seq<string>) {
    create.Some? && create.value.Answered? && create.value.errors.Some? ==>
      forall c :: Mentions(create.value.errors.value, c) && Says(c) ==> c in reasons
  }

  /** The reasons that the status gives are among these. */
  ghost predicate StatusGives(status: InfoReply, reasons: seq<string>) {
    status.Info? ==> forall c :: Mentions(status.errors, c) && Says(c) ==> c in reasons
  }

  /** The reasons of the answers have been heard. */
  ghost predicate ReasonsHeard(heard: Heard) {
    CreateGives(heard.create, heard.reasons) && (heard.status.Some? ==> StatusGives(heard.status.value, heard.reasons))
  }

  /** Every reason heard that says something is shown, and no other except the given ones. */
  ghost predicate ReasonsShown(heard: Heard, own: set<string>, v: Validation) {
    forall c :: c in v.reasons <==> c in own || (c in heard.reasons && Says(c))
  }

  /** A create request that was answered with a refusal: no draft, but rows or reasons. */
  predicate Refuses(o: Offer, ids: seq<ClusterIdentity>, reply: CreateReply) {
    && reply.Answered? && reply.draft.NoDraft? && reply.errors.Some? && NormalizeErrors(o.rows, ids, reply.errors.value).Ok?
    && var e := NormalizeErrors(o.rows, ids, reply.errors.value).value; var reasons := Normalized(e.errorReasons + e.rejectedReasons);
      (|e.rejected| > 0 || |reasons| > 0) && forall r <- reasons :: !Blank(r)
  }

  /** A terminal status that can be read. */
  predicate Readable(o: Offer, ids: seq<ClusterIdentity>, reply: InfoReply) {
    && reply.Info? && NormalizeErrors(o.rows, ids, reply.errors).Ok?
    && forall c <- reply.clusters :: DestinationOf(ids, c.macro).Some?
  }

  function RejectedIn(o: Offer, ids: seq<ClusterIdentity>, reply: InfoReply): seq<Rejection>
    requires Readable(o, ids, reply)
  {
    NormalizeErrors(o.rows, ids, reply.errors).value.rejected
  }

  /** Status SUCCESS, with some row kept. */
  predicate Succeeds(o: Offer, ids: seq<ClusterIdentity>, reply: InfoReply) {
    Readable(o, ids, reply) && !reply.failed && |Kept(o.rows, RejectedIn(o, ids, reply))| > 0
  }

  /** Every cluster has an eligible warehouse and no contradictory eligible one. */
  predicate EveryClusterServable(ids: seq<ClusterIdentity>, reply: InfoReply) {
    reply.Info? && forall x <- ids :: Servable(RowsOf(reply.clusters, x.macro))
  }

  /** The evidence against the answers. An unknown outcome is a create request without an answer, a
      rate limit some request that met one, a rejection a refused request or a terminal status that
      keeps nothing. Time slots are asked for exactly when the status succeeds and every cluster can
      be served, and when they come they and the rejected rows decide the state; anything else is
      unavailable. A rejection and an answer with time slots show the reasons given, and the draft
      is the one created. */
  ghost predicate Told(o: Offer, ids: seq<ClusterIdentity>, heard: Heard, v: Validation) {
    DraftShown(heard, v) &&
    if heard.cancelled then v.state.Unavailable? && heard.slots.None?
    else
      && (v.state.OutcomeUnknown? <==> heard.create == Some(CreateFailed(NoAnswer)))
      && (v.state.RateLimited? <==>
           heard.create == Some(CreateFailed(Limited)) || heard.status == Some(InfoFailed(Limited)) || heard.slots == Some(SlotFailed(Limited)))
      && (v.state.Rejected? <==>
           || (heard.create.Some? && Refuses(o, ids, heard.create.value))
           || (heard.status.Some? && Readable(o, ids, heard.status.value) && !Succeeds(o, ids, heard.status.value)))
      && (heard.slots.Some? <==>
           heard.status.Some? && Succeeds(o, ids, heard.status.value) && EveryClusterServable(ids, heard.status.value))
      && (v.state.Accepted? || v.state.NoTimeslot? || v.state.Partial? <==> heard.slots.Some? && heard.slots.value.Slots?)
      && (v.state.Rejected? ==> ReasonsHeard(heard) && ReasonsShown(heard, {"OZON_REJECTED_CANDIDATE"}, v))
      && (heard.slots.Some? && heard.slots.value.Slots? ==>
           && SlotsDecide(o, ids, heard.status.value, heard.slots.value.slots, v)
           && ReasonsHeard(heard) && ReasonsShown(heard, OwnReasons(v.rejected, v.timeslots), v))
  }

  /** The reasons that the service adds when time slots were answered. */
  function OwnReasons(rejected: seq<Rejection>, slots: seq<Slot>): set<string> {
    (if |rejected| > 0 then {"OZON_PARTIAL_ACCEPTANCE"} else {}) + (if |slots| == 0 then {"NO_TIMESLOT"} else {})
  }

  /** The slots are those answered; kept and rejected rows are those of the status; rejected rows make
      the evidence partial, no slot makes it one without a time slot, anything else is accepted. */
  ghost predicate SlotsDecide(o: Offer, ids: seq<ClusterIdentity>, status: InfoReply, slots: seq<Slot>, v: Validation)
    requires Readable(o, ids, status)
  {
    var rejected := RejectedIn(o, ids, status);
    && v.timeslots == slots && v.rejected == rejected && v.accepted == Kept(o.rows, rejected)
    && v.state == if |rejected| > 0 then Partial else if |slots| == 0 then NoTimeslot else Accepted
  }

  lemma OwnCodesSaySomething()
    ensures !Blank("OZON_REJECTED_CANDIDATE") && !Blank("OZON_INVALID_DRAFT_RESPONSE") && !Blank("OZON_STORAGE_WAREHOUSE_UNAVAILABLE")
  {
    assert 'O' in "OZON_REJECTED_CANDIDATE" && 'O' in "OZON_INVALID_DRAFT_RESPONSE" && 'O' in "OZON_STORAGE_WAREHOUSE_UNAVAILABLE";
  }

  lemma RefusalIsBuilt(o: Offer, draft: Option<nat>, reasons: seq<string>, rejected: seq<Rejection>)
    ensures var v := Build(o, Rejected, ["OZON_REJECTED_CANDIDATE"] + reasons, draft, [], rejected, []);
      && (v.Some? <==> forall r <- reasons :: !Blank(r))
      && (v.Some? ==> v.value.state.Rejected? && v.value.draft == draft && v.value.reasons == ["OZON_REJECTED_CANDIDATE"] + reasons)
  {
    OwnCodesSaySomething();
    var all := ["OZON_REJECTED_CANDIDATE"] + reasons;
    forall r ensures r in all <==> r == "OZON_REJECTED_CANDIDATE" || r in reasons {
    }
  }

  /** The reasons read from the answer to a create request. */
  function ReplyReasons(o: Offer, ids: seq<ClusterIdentity>, reply: CreateReply): seq<string> {
    if reply.Answered? && reply.errors.Some? && NormalizeErrors(o.rows, ids, reply.errors.value).Ok? then
      var e := NormalizeErrors(o.rows, ids, reply.errors.value).value; e.errorReasons + e.rejectedReasons
    else []
  }

  lemma ReplyGives(o: Offer, ids: seq<ClusterIdentity>, reply: CreateReply)
    requires reply.Answered? && reply.errors.Some? && NormalizeErrors(o.rows, ids, reply.errors.value).Ok?
    ensures CreateGives(Some(reply), ReplyReasons(o, ids, reply))
  {
    forall c | Mentions(reply.errors.value, c) && Says(c) ensures c in ReplyReasons(o, ids, reply) {
      ReasonsAreMentioned(o.rows, ids, reply.errors.value, c);
    }
  }

  lemma GoOnGives(o: Offer, ids: seq<ClusterIdentity>, reply: CreateReply)
    requires JudgeCreate(o, ids, reply).GoOn?
    ensures var e := JudgeCreate(o, ids, reply).next;
      ReplyReasons(o, ids, reply) == e.errorReasons + e.rejectedReasons && CreateGives(Some(reply), e.errorReasons + e.rejectedReasons)
  {
    ReplyGives(o, ids, reply);
  }

  lemma RefusalShows(heard: Heard, v: Validation)
    requires v.reasons == ["OZON_REJECTED_CANDIDATE"] + Normalized(heard.reasons)
    ensures ReasonsShown(heard, {"OZON_REJECTED_CANDIDATE"}, v)
  {
  }

  lemma RefusalTells(o: Offer, ids: seq<ClusterIdentity>, reply: CreateReply)
    requires reply.Answered? && reply.draft.NoDraft? && reply.errors.Some? && NormalizeErrors(o.rows, ids, reply.errors.value).Ok?
    ensures JudgeCreate(o, ids, reply).Finished?
    ensures var v := JudgeCreate(o, ids, reply).v;
      && v.state == (if Refuses(o, ids, reply) then Rejected else Unavailable) && v.draft.None?
      && (v.state.Rejected? ==> ReasonsShown(Heard(Some(reply), None, None, false, ReplyReasons(o, ids, reply)), {"OZON_REJECTED_CANDIDATE"}, v))
  {
    var e := NormalizeErrors(o.rows, ids, reply.errors.value).value;
    RefusalIsBuilt(o, None, Normalized(e.errorReasons + e.rejectedReasons), e.rejected);
    if Refuses(o, ids, reply) {
      RefusalShows(Heard(Some(reply), None, None, false, ReplyReasons(o, ids, reply)), JudgeCreate(o, ids, reply).v);
    }
  }

  lemma CreateTells(o: Offer, ids: seq<ClusterIdentity>, reply: CreateReply)
    requires JudgeCreate(o, ids, reply).Finished?
    ensures Told(o, ids, Heard(Some(reply), None, None, false, ReplyReasons(o, ids, reply)), JudgeCreate(o, ids, reply).v)
  {
    match reply
    case CreateFailed(code) =>
    case Answered(draft, errors) =>
      if draft.NoDraft? && errors.Some? && NormalizeErrors(o.rows, ids, errors.value).Ok? {
        RefusalTells(o, ids, reply);
        ReplyGives(o, ids, reply);
      } else {
        assert JudgeCreate(o, ids, reply).v.state.Unavailable? && JudgeCreate(o, ids, reply).v.draft.None?;
      }
  }

  lemma VerdictOfInfo(o: Offer, ids: seq<ClusterIdentity>, draft: nat, reply: InfoReply)
    ensures var verdict := JudgeInfo(o, ids, draft, reply);
      verdict.Finished? ==>
        && (verdict.v.state.RateLimited? || verdict.v.state.Unavailable?) && verdict.v.draft == Some(draft)
        && (verdict.v.state.RateLimited? <==> reply == InfoFailed(Limited)) && !Readable(o, ids, reply)
  {
    if reply.Info? {
      QuantityIsConserved(o.rows, ids, reply.failed, reply.errors, reply.clusters);
    }
  }

  lemma InfoTells(o: Offer, ids: seq<ClusterIdentity>, draft: nat, create: Option<CreateReply>, reply: InfoReply, reasons: seq<string>)
    requires Drafted(create, draft) && JudgeInfo(o, ids, draft, reply).Finished?
    ensures Told(o, ids, Heard(create, Some(reply), None, false, reasons), JudgeInfo(o, ids, draft, reply).v)
  {
    VerdictOfInfo(o, ids, draft, reply);
  }

  /** The status was read from the reply. */
  predicate ReadFrom(o: Offer, ids: seq<ClusterIdentity>, reply: InfoReply, info: DraftInfo) {
    reply.Info? && ReadInfo(o.rows, ids, reply.failed, reply.errors, reply.clusters) == Ok(info)
  }

  lemma ReadMeans(o: Offer, ids: seq<ClusterIdentity>, reply: InfoReply, info: DraftInfo)
    requires ReadFrom(o, ids, reply, info)
    ensures Readable(o, ids, reply) && info.rejected == RejectedIn(o, ids, reply) && info.clusters == reply.clusters
    ensures info.accepted == if reply.failed then [] else Kept(o.rows, info.rejected)
    ensures Succeeds(o, ids, reply) <==> !(info.failed || |info.accepted| == 0)
  {
    QuantityIsConserved(o.rows, ids, reply.failed, reply.errors, reply.clusters);
  }

  lemma ReadGives(o: Offer, ids: seq<ClusterIdentity>, reply: InfoReply, info: DraftInfo, reasons: seq<string>)
    requires ReadFrom(o, ids, reply, info) && forall c :: c in info.errorReasons || c in info.rejectedReasons ==> c in reasons
    ensures StatusGives(reply, reasons)
  {
    forall c | Mentions(reply.errors, c) && Says(c) ensures c in reasons {
      ReasonsAreMentioned(o.rows, ids, reply.errors, c);
    }
  }

  lemma VerdictOfStatus(o: Offer, ids: seq<ClusterIdentity>, draft: nat, info: DraftInfo, causes: seq<string>)
    ensures var verdict := JudgeStatus(o, ids, draft, info, causes); var none := info.failed || |info.accepted| == 0;
      && (verdict.GoOn? <==> !none && forall x <- ids :: Servable(RowsOf(info.clusters, x.macro)))
      && (verdict.Finished? ==> verdict.v.draft == Some(draft) && verdict.v.state == if none then Rejected else Unavailable)
      && (verdict.Finished? && none ==> verdict.v.reasons == ["OZON_REJECTED_CANDIDATE"] + causes)
      && (verdict.Raises? ==> exists r <- causes :: Blank(r))
  {
    OwnCodesSaySomething();
    RefusalIsBuilt(o, Some(draft), causes, info.rejected);
  }

  lemma StatusTells(o: Offer, ids: seq<ClusterIdentity>, draft: nat, create: Option<CreateReply>, reply: InfoReply, info: DraftInfo,
                    causes: seq<string>, reasons: seq<string>)
    requires Drafted(create, draft) && ReadFrom(o, ids, reply, info)
    requires causes == Normalized(reasons) && CreateGives(create, reasons) && StatusGives(reply, reasons)
    ensures var verdict := JudgeStatus(o, ids, draft, info, causes);
      && (verdict.Finished? ==> Told(o, ids, Heard(create, Some(reply), None, false, reasons), verdict.v))
      && (verdict.GoOn? <==> Succeeds(o, ids, reply) && EveryClusterServable(ids, reply))
      && (verdict.Raises? ==> exists r <- causes :: Blank(r))
  {
    ReadMeans(o, ids, reply, info);
    VerdictOfStatus(o, ids, draft, info, causes);
    var verdict := JudgeStatus(o, ids, draft, info, causes);
    if verdict.Finished? && verdict.v.state.Rejected? {
      RefusalShows(Heard(create, Some(reply), None, false, reasons), verdict.v);
    }
  }

  /** Why a validation raises: the client did, the credentials changed, or it was told a blank reason. */
  ghost predicate Breaks(heard: Heard) {
    || heard.create in {Some(CreateCrash), Some(CreateFailed(ContextChanged))}
    || heard.status in {Some(InfoCrash), Some(InfoFailed(ContextChanged))}
    || heard.slots in {Some(SlotCrash), Some(SlotFailed(ContextChanged))}
    || exists r <- heard.reasons :: Blank(r)
  }

  lemma RefusedSlotsSaySomething()
    ensures !Blank("TIMESLOT_DATE_RANGE_UNSUPPORTED") && !Blank("OZON_TIMESLOT_REQUEST_REJECTED")
  {
    assert 'T' in "TIMESLOT_DATE_RANGE_UNSUPPORTED" && 'O' in "OZON_TIMESLOT_REQUEST_REJECTED";
  }

  lemma SlotCodesSaySomething()
    ensures !Blank("TIMESLOT_DATE_RANGE_UNSUPPORTED") && !Blank("OZON_TIMESLOT_REQUEST_REJECTED")
    ensures !Blank("OZON_PARTIAL_ACCEPTANCE") && !Blank("NO_TIMESLOT") && !Blank("VALIDATION_CANCELLED")
  {
    RefusedSlotsSaySomething();
    assert 'O' in "OZON_PARTIAL_ACCEPTANCE" && 'N' in "NO_TIMESLOT" && 'V' in "VALIDATION_CANCELLED";
  }

  /** What a caller who cancels before the time slots are asked for is given. */
  lemma CancelledTells(o: Offer, ids: seq<ClusterIdentity>, draft: nat, create: Option<CreateReply>, reply: InfoReply, info: DraftInfo, reasons: seq<string>)
    requires Drafted(create, draft) && HonestInfo(o, info)
    ensures var v := Build(o, Unavailable, ["VALIDATION_CANCELLED"], Some(draft), info.accepted, info.rejected, []);
      v.Some? && Good(o, v.value) && Told(o, ids, Heard(create, Some(reply), None, true, reasons), v.value)
  {
    SlotCodesSaySomething();
    BuildIsGood(o, Unavailable, ["VALIDATION_CANCELLED"], Some(draft), info.accepted, info.rejected, []);
  }

  /** What a caller is given who cancels before the status is known, or for whom it never gets known. */
  lemma PlainTells(o: Offer, ids: seq<ClusterIdentity>, draft: nat, create: Option<CreateReply>, status: Option<InfoReply>, cancelled: bool, reason: string)
    requires Drafted(create, draft) && (status.None? || status == Some(InProgress))
    ensures var v := Plain(o, Unavailable, reason, Some(draft));
      Good(o, v) && Told(o, ids, Heard(create, status, None, cancelled, []), v)
  {
    PlainIsGood(o, Unavailable, reason, Some(draft));
  }

  lemma SlotsRaise(o: Offer, draft: nat, info: DraftInfo, causes: seq<string>, slots: SlotReply)
    requires JudgeSlots(o, draft, info, causes, slots).Raises?
    ensures slots.SlotCrash? || slots == SlotFailed(ContextChanged) || exists r <- causes :: Blank(r)
  {
    SlotCodesSaySomething();
    if slots.Slots? {
      var partial := ["OZON_PARTIAL_ACCEPTANCE"] + causes + (if |slots.slots| == 0 then ["NO_TIMESLOT"] else []);
      forall r | r in partial && Blank(r) ensures r in causes {
      }
      forall r | r in Normalized(causes + ["NO_TIMESLOT"]) && Blank(r) ensures r in causes {
      }
    }
  }

  lemma VerdictOfSlots(o: Offer, draft: nat, info: DraftInfo, causes: seq<string>, slots: SlotReply)
    ensures var verdict := JudgeSlots(o, draft, info, causes, slots);
      verdict.Finished? ==>
        && (verdict.v.state.RateLimited? <==> slots == SlotFailed(Limited))
        && !verdict.v.state.OutcomeUnknown? && !verdict.v.state.Rejected? && verdict.v.draft == Some(draft)
        && (verdict.v.state.Accepted? || verdict.v.state.NoTimeslot? || verdict.v.state.Partial? <==> slots.Slots?)
        && (slots.Slots? ==>
             && verdict.v.timeslots == slots.slots && verdict.v.rejected == info.rejected && verdict.v.accepted == info.accepted
             && verdict.v.state == if |info.rejected| > 0 then Partial else if |slots.slots| == 0 then NoTimeslot else Accepted)
  {
  }

  lemma SlotsShow(o: Offer, draft: nat, info: DraftInfo, reasons: seq<string>, slots: SlotReply, heard: Heard)
    requires slots.Slots? && heard.reasons == reasons && JudgeSlots(o, draft, info, Normalized(reasons), slots).Finished?
    ensures ReasonsShown(heard, OwnReasons(info.rejected, slots.slots), JudgeSlots(o, draft, info, Normalized(reasons), slots).v)
  {
    var v := JudgeSlots(o, draft, info, Normalized(reasons), slots).v;
    var causes := Normalized(reasons);
    forall c ensures c in v.reasons <==> c in OwnReasons(info.rejected, slots.slots) || c in causes {
      if |info.rejected| > 0 {
        assert v.reasons == ["OZON_PARTIAL_ACCEPTANCE"] + causes + (if |slots.slots| == 0 then ["NO_TIMESLOT"] else []);
      } else if |slots.slots| == 0 {
        assert v.reasons == Normalized(causes + ["NO_TIMESLOT"]);
      } else {
        assert v.reasons == causes;
      }
    }
  }

  lemma SlotsTell(o: Offer, ids: seq<ClusterIdentity>, draft: nat, create: Option<CreateReply>, reply: InfoReply, info: DraftInfo,
                  causes: seq<string>, slots: SlotReply, reasons: seq<string>)
    requires Drafted(create, draft) && ReadFrom(o, ids, reply, info) && Succeeds(o, ids, reply) && EveryClusterServable(ids, reply)
    requires causes == Normalized(reasons) && CreateGives(create, reasons) && StatusGives(reply, reasons)
    ensures var verdict := JudgeSlots(o, draft, info, causes, slots);
      verdict.Finished? ==> Told(o, ids, Heard(create, Some(reply), Some(slots), false, reasons), verdict.v)
  {
    ReadMeans(o, ids, reply, info);
    VerdictOfSlots(o, draft, info, causes, slots);
    if slots.Slots? && JudgeSlots(o, draft, info, causes, slots).Finished? {
      SlotsShow(o, draft, info, reasons, slots, Heard(create, Some(reply), Some(slots), false, reasons));
    }
  }
}
