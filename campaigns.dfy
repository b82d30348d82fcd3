/**
 * The `Campaign` record (src/models/campaign.py): sixteen fields, seven
 * of them required, built from a request payload by keyword arguments,
 * and its encoding as the parameters of the store's `create_campaign`
 * procedure, where every key is the field name with a leading `_`.
 */
module Campaigns {
  import opened Common

  /** The fields of the record, in declaration order. */
  datatype FieldName =
    | Name | Count | Threshold | Status | CompanyId | CreatedBy | NextRunTime
    | Type | Duration | EndDate | Frequency | TimeOfDay | Description
    | AudienceIds | QuestionnaireIds | CloudTaskId

  /** The Python attribute name of a field. */
  function PyName(f: FieldName): string
  {
    match f
    case Name => "name"
    case Count => "count"
    case Threshold => "threshold"
    case Status => "status"
    case CompanyId => "company_id"
    case CreatedBy => "created_by"
    case NextRunTime => "next_run_time"
    case Type => "type"
    case Duration => "duration"
    case EndDate => "end_date"
    case Frequency => "frequency"
    case TimeOfDay => "time_of_day"
    case Description => "description"
    case AudienceIds => "audience_ids"
    case QuestionnaireIds => "questionnaire_ids"
    case CloudTaskId => "cloud_task_id"
  }

  /** The field a Python attribute name denotes, if any. */
  function FieldNamed(k: string): Option<FieldName>
  {
    FindField(k, AllFields)
  }

  /** The first of `fields` whose attribute name is `k`. */
  function FindField(k: string, fields: seq<FieldName>): (r: Option<FieldName>)
    ensures r.Some? ==> r.value in fields && PyName(r.value) == k
  {
    if fields == [] then None
    else if PyName(fields[0]) == k then Some(fields[0])
    else FindField(k, fields[1..])
  }

  /** Every field, in declaration order. */
  const AllFields: seq<FieldName> :=
    [Name, Count, Threshold, Status, CompanyId, CreatedBy, NextRunTime,
     Type, Duration, EndDate, Frequency, TimeOfDay, Description,
     AudienceIds, QuestionnaireIds, CloudTaskId]

  /** The fields without a default: every keyword call must supply them. */
  const RequiredFields: seq<FieldName> :=
    [Name, Count, Threshold, Status, CompanyId, CreatedBy, NextRunTime]

  /** Distinct fields have distinct attribute names. */
  lemma PyNameInjective(f: FieldName, g: FieldName)
    ensures PyName(f) == PyName(g) ==> f == g
  {
  }

  lemma {:induction false} FindListed(f: FieldName, fields: seq<FieldName>)
    requires f in fields
    ensures FindField(PyName(f), fields) == Some(f)
  {
    if fields[0] != f {
      PyNameInjective(f, fields[0]);
      FindListed(f, fields[1..]);
    }
  }

  /** A field name and its attribute name determine each other. */
  lemma FieldNamedInverse(f: FieldName, k: string)
    ensures FieldNamed(PyName(f)) == Some(f)
    ensures FieldNamed(k) == Some(f) ==> PyName(f) == k
    ensures f in AllFields
  {
    FindListed(f, AllFields);
  }

  /** An optional field left out of the keyword arguments holds `Null` (Python's None). */
  datatype Campaign = Campaign(
    name: Value,
    count: Value,
    threshold: Value,
    status: Value,
    companyId: Value,
    createdBy: Value,
    nextRunTime: Value,
    campaignType: Value,
    duration: Value,
    endDate: Value,
    frequency: Value,
    timeOfDay: Value,
    description: Value,
    audienceIds: Value,
    questionnaireIds: Value,
    cloudTaskId: Value)

  /** `getattr(campaign, PyName(f))`. */
  function Field(c: Campaign, f: FieldName): Value
  {
    match f
    case Name => c.name
    case Count => c.count
    case Threshold => c.threshold
    case Status => c.status
    case CompanyId => c.companyId
    case CreatedBy => c.createdBy
    case NextRunTime => c.nextRunTime
    case Type => c.campaignType
    case Duration => c.duration
    case EndDate => c.endDate
    case Frequency => c.frequency
    case TimeOfDay => c.timeOfDay
    case Description => c.description
    case AudienceIds => c.audienceIds
    case QuestionnaireIds => c.questionnaireIds
    case CloudTaskId => c.cloudTaskId
  }

  /** The value a keyword call gives a field: its argument, or the default None. */
  function Argument(p: Payload, f: FieldName): Value
  {
    if PyName(f) in p then p[PyName(f)] else Null
  }

  /**
   * `Campaign(**payload)`: a TypeError when the payload holds a key that is
   * not a field (that check comes first) or leaves out a required field;
   * otherwise every field takes its argument or its default.
   */
  function FromPayload(p: Payload): (r: Result<Campaign, Error>)
    ensures r.Success? <==>
              (forall k :: k in p ==> FieldNamed(k).Some?) && (forall f :: f in RequiredFields ==> PyName(f) in p)
    ensures r.Failure? ==> r.error.ConstructionError?
    ensures r.Success? ==> forall f :: Field(r.value, f) == Argument(p, f)
  {
    if exists k :: k in p && FieldNamed(k).None? then
      Failure(ConstructionError("unexpected keyword argument"))
    else if exists f :: f in RequiredFields && PyName(f) !in p then
      Failure(ConstructionError("missing required positional argument"))
    else
      Success(Assemble(f => Argument(p, f)))
  }

  /** The record whose every field `f` holds `v(f)`. */
  function Assemble(v: FieldName -> Value): (c: Campaign)
    ensures forall f :: Field(c, f) == v(f)
  {
    AssembledFields(v);
    Campaign(
      v(Name), v(Count), v(Threshold), v(Status), v(CompanyId), v(CreatedBy), v(NextRunTime),
      v(Type), v(Duration), v(EndDate), v(Frequency), v(TimeOfDay), v(Description),
      v(AudienceIds), v(QuestionnaireIds), v(CloudTaskId))
  }

  lemma AssembledFields(v: FieldName -> Value)
    ensures forall f :: Field(Campaign(
      v(Name), v(Count), v(Threshold), v(Status), v(CompanyId), v(CreatedBy), v(NextRunTime),
      v(Type), v(Duration), v(EndDate), v(Frequency), v(TimeOfDay), v(Description),
      v(AudienceIds), v(QuestionnaireIds), v(CloudTaskId)), f) == v(f)
  {
    var c := Campaign(
      v(Name), v(Count), v(Threshold), v(Status), v(CompanyId), v(CreatedBy), v(NextRunTime),
      v(Type), v(Duration), v(EndDate), v(Frequency), v(TimeOfDay), v(Description),
      v(AudienceIds), v(QuestionnaireIds), v(CloudTaskId));
    forall f: FieldName
      ensures Field(c, f) == v(f)
    {
      match f
      case Name =>
      case Count =>
      case Threshold =>
      case Status =>
      case CompanyId =>
      case CreatedBy =>
      case NextRunTime =>
      case Type =>
      case Duration =>
      case EndDate =>
      case Frequency =>
      case TimeOfDay =>
      case Description =>
      case AudienceIds =>
      case QuestionnaireIds =>
      case CloudTaskId =>
    }
  }

  /** A record is determined by its fields. */
  lemma FieldsDetermine(c: Campaign, d: Campaign)
    requires forall f :: Field(c, f) == Field(d, f)
    ensures c == d
  {
    assert c.name == d.name by { assert Field(c, Name) == Field(d, Name); }
    assert c.count == d.count by { assert Field(c, Count) == Field(d, Count); }
    assert c.threshold == d.threshold by { assert Field(c, Threshold) == Field(d, Threshold); }
    assert c.status == d.status by { assert Field(c, Status) == Field(d, Status); }
    assert c.companyId == d.companyId by { assert Field(c, CompanyId) == Field(d, CompanyId); }
    assert c.createdBy == d.createdBy by { assert Field(c, CreatedBy) == Field(d, CreatedBy); }
    assert c.nextRunTime == d.nextRunTime by { assert Field(c, NextRunTime) == Field(d, NextRunTime); }
    assert c.campaignType == d.campaignType by { assert Field(c, Type) == Field(d, Type); }
    assert c.duration == d.duration by { assert Field(c, Duration) == Field(d, Duration); }
    assert c.endDate == d.endDate by { assert Field(c, EndDate) == Field(d, EndDate); }
    assert c.frequency == d.frequency by { assert Field(c, Frequency) == Field(d, Frequency); }
    assert c.timeOfDay == d.timeOfDay by { assert Field(c, TimeOfDay) == Field(d, TimeOfDay); }
    assert c.description == d.description by { assert Field(c, Description) == Field(d, Description); }
    assert c.audienceIds == d.audienceIds by { assert Field(c, AudienceIds) == Field(d, AudienceIds); }
    assert c.questionnaireIds == d.questionnaireIds by { assert Field(c, QuestionnaireIds) == Field(d, QuestionnaireIds); }
    assert c.cloudTaskId == d.cloudTaskId by { assert Field(c, CloudTaskId) == Field(d, CloudTaskId); }
  }

  /** The procedure parameter that carries field `f`: its name with a leading `_`. */
  function RpcKey(f: FieldName): string
  {
    "_" + PyName(f)
  }

  /** The field a procedure parameter carries, if it is one. */
  function FieldOfKey(k: string): Option<FieldName>
  {
    if |k| >= 1 && k[0] == '_' then FieldNamed(k[1..]) else None
  }

  lemma FieldOfRpcKey(f: FieldName)
    ensures FieldOfKey(RpcKey(f)) == Some(f)
  {
    assert RpcKey(f)[1..] == PyName(f);
    FieldNamedInverse(f, PyName(f));
  }

  /**
   * `to_rpc_params`: one entry per field, under its prefixed name, holding
   * the field's value unchanged, and nothing else.
   */
  function ToRpcParams(c: Campaign): (r: map<string, Value>)
    ensures forall f :: RpcKey(f) in r && r[RpcKey(f)] == Field(c, f)
    ensures r.Keys == set f | f in AllFields :: RpcKey(f)
  {
    ParamsOfFields(c, AllFields);
    ToRpcParamsComplete(c);
    ParamsOf(c, AllFields)
  }

  /** The dict comprehension over `asdict(campaign).items()`, taken in field order. */
  function ParamsOf(c: Campaign, fields: seq<FieldName>): map<string, Value>
  {
    if fields == [] then map[]
    else ParamsOf(c, fields[..|fields| - 1])[RpcKey(fields[|fields| - 1]) := Field(c, fields[|fields| - 1])]
  }

  /** Each listed field has its entry, and every entry belongs to a listed field. */
  lemma {:induction false} ParamsOfFields(c: Campaign, fields: seq<FieldName>)
    ensures forall f :: f in fields ==> RpcKey(f) in ParamsOf(c, fields) && ParamsOf(c, fields)[RpcKey(f)] == Field(c, f)
    ensures forall k :: k in ParamsOf(c, fields) ==> exists f :: f in fields && RpcKey(f) == k
  {
    if fields != [] {
      var init := fields[..|fields| - 1];
      var last := fields[|fields| - 1];
      ParamsOfFields(c, init);
      assert fields == init + [last];
      forall f | f in fields
        ensures RpcKey(f) in ParamsOf(c, fields) && ParamsOf(c, fields)[RpcKey(f)] == Field(c, f)
      {
        RpcKeyInjective(f, last);
      }
    }
  }

  lemma ToRpcParamsComplete(c: Campaign)
    ensures forall f :: RpcKey(f) in ParamsOf(c, AllFields) && ParamsOf(c, AllFields)[RpcKey(f)] == Field(c, f)
    ensures ParamsOf(c, AllFields).Keys == set f | f in AllFields :: RpcKey(f)
  {
    ParamsOfFields(c, AllFields);
    forall f ensures f in AllFields {
      FieldNamedInverse(f, "");
    }
  }

  /** The inverse of `ToRpcParams`: a record from procedure parameters, if every key is there. */
  function FromRpcParams(r: map<string, Value>): Option<Campaign>
  {
    if forall f :: RpcKey(f) in r then
      Some(Assemble(f => if RpcKey(f) in r then r[RpcKey(f)] else Null))
    else None
  }

  /** Prefixing with `_` is injective, so distinct fields get distinct keys. */
  lemma RpcKeyInjective(f: FieldName, g: FieldName)
    ensures RpcKey(f) == RpcKey(g) <==> f == g
  {
    FieldOfRpcKey(f);
    FieldOfRpcKey(g);
  }

  /** Removing the leading `_` from every key gives back exactly the field names. */
  lemma RpcKeysStripToFields(c: Campaign)
    ensures (set k | k in ToRpcParams(c) :: k[1..]) == set f | f in AllFields :: PyName(f)
  {
    var r := ToRpcParams(c);
    forall f | f in AllFields ensures PyName(f) in (set k | k in r :: k[1..]) {
      assert RpcKey(f) in r && RpcKey(f)[1..] == PyName(f);
    }
    forall k | k in r ensures k[1..] in set f | f in AllFields :: PyName(f) {
      var f :| f in AllFields && RpcKey(f) == k;
      assert k[1..] == PyName(f);
    }
  }

  /** There is exactly one parameter per field. */
  lemma RpcParamsSize(c: Campaign)
    ensures |ToRpcParams(c)| == |AllFields| == 16
  {
    SizeOfPrefixed(AllFields);
  }

  /** Distinct fields get as many distinct keys. */
  lemma {:induction false} SizeOfPrefixed(fields: seq<FieldName>)
    requires forall i, j :: 0 <= i < j < |fields| ==> fields[i] != fields[j]
    ensures |set f | f in fields :: RpcKey(f)| == |fields|
  {
    if fields != [] {
      var rest := fields[1..];
      SizeOfPrefixed(rest);
      var keys := set f | f in fields :: RpcKey(f);
      var restKeys := set f | f in rest :: RpcKey(f);
      assert keys == restKeys + {RpcKey(fields[0])};
      forall f | f in rest ensures RpcKey(f) != RpcKey(fields[0]) {
        RpcKeyInjective(f, fields[0]);
      }
      assert RpcKey(fields[0]) !in restKeys;
    }
  }

  /** Decoding the parameters gives back the record. */
  lemma RpcRoundTrip(c: Campaign)
    ensures FromRpcParams(ToRpcParams(c)) == Some(c)
  {
    var r := ToRpcParams(c);
    var d := Assemble(f => if RpcKey(f) in r then r[RpcKey(f)] else Null);
    FieldsDetermine(c, d);
  }
}
