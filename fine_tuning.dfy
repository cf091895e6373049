/**
 * The endpoint that updates a user's per-project or per-organization
 * notification options. A request names a notification type and carries a
 * payload mapping ids (as text) to values. The type must be known (404),
 * every id must read as an integer (400), and the ids must belong to the
 * user's organizations or projects, depending on the type (403). The "email"
 * type then sets the delivery address per project; any other type updates
 * the notification setting of each named parent. Both successful paths answer
 * 204, and each writes inside one database transaction.
 *
 * The user's organizations, projects and verified addresses are inputs. The
 * stored options are fields of a `NotificationStore`. The two helpers that map a
 * fine-tuning key to a setting type and an integer to an option value are
 * not part of this model: their results are kept as symbolic terms
 * (`SettingType`, `SettingValue`).
 */
module NotificationFineTuning {
  import opened Wrappers
  import opened Strings

  datatype FineTuningKey = Alerts | Deploy | Email | Reports | Workflow

  /** The text of each key as it appears in the request path. */
  function KeyName(key: FineTuningKey): string
  {
    match key
    case Alerts => "alerts"
    case Deploy => "deploy"
    case Email => "email"
    case Reports => "reports"
    case Workflow => "workflow"
  }

  /** `FineTuningAPIKey(name)`: the key with this text, or None where Python raises ValueError. */
  function ParseFineTuningKey(name: string): (r: Option<FineTuningKey>)
    ensures r.Some? ==> KeyName(r.value) == name
    ensures r.None? ==> forall key :: KeyName(key) != name
  {
    if name == "alerts" then Some(Alerts)
    else if name == "deploy" then Some(Deploy)
    else if name == "email" then Some(Email)
    else if name == "reports" then Some(Reports)
    else if name == "workflow" then Some(Workflow)
    else None
  }

  /** Every key's text reads back as that key. */
  lemma ParseFineTuningKeyName(key: FineTuningKey)
    ensures ParseFineTuningKey(KeyName(key)) == Some(key)
  {
    var r := ParseFineTuningKey(KeyName(key));
    assert r.Some?;
    match key
    case Alerts =>
    case Deploy =>
    case Email =>
    case Reports =>
    case Workflow =>
  }

  datatype ScopeType = OrganizationScope | ProjectScope

  /** Whose ids the payload of each key holds: organizations for deploy and reports, projects otherwise. */
  function ParentScope(key: FineTuningKey): ScopeType
  {
    if key == Deploy || key == Reports then OrganizationScope else ProjectScope
  }

  /** A JSON value of the payload. */
  datatype Value = Str(s: string) | Int(n: int) | Bool(b: bool)

  /** Python's `int(value)`: None where it raises ValueError. */
  function IntOf(v: Value): Option<int>
  {
    match v
    case Str(s) => ParseInt(s)
    case Int(n) => Some(n)
    case Bool(b) => Some(if b then 1 else 0)
  }

  /** Python's `str(value)`. */
  function StrOf(v: Value): string
  {
    match v
    case Str(s) => s
    case Int(n) => IntToString(n)
    case Bool(b) => if b then "True" else "False"
  }

  /** The payload's items, in order. */
  type Payload = seq<(string, Value)>

  function Keys(data: Payload): set<string>
  {
    set k | 0 <= k < |data| :: data[k].0
  }

  /** `data[key]`: the value of the first item with this key. */
  function Lookup(data: Payload, key: string): (v: Value)
    requires key in Keys(data)
    ensures exists k :: 0 <= k < |data| && data[k] == (key, v)
  {
    if data[0].0 == key then data[0].1
    else
      assert key in Keys(data[1..]) by {
        var k :| 0 <= k < |data| && data[k].0 == key;
        assert data[1..][k - 1].0 == key;
      }
      Lookup(data[1..], key)
  }

  /** Every key of the payload reads as an integer. */
  predicate AllIdsParse(data: Payload)
  {
    forall k :: 0 <= k < |data| ==> ParseInt(data[k].0).Some?
  }

  /** `{int(i) for i in data.keys()}`: None where some key raises ValueError. */
  function IdsToUpdate(data: Payload): (r: Option<set<int>>)
    ensures r.Some? <==> AllIdsParse(data)
    ensures r.Some? ==> forall n :: n in r.value <==> exists k :: 0 <= k < |data| && ParseInt(data[k].0) == Some(n)
  {
    if AllIdsParse(data) then Some(set k | 0 <= k < |data| :: ParseInt(data[k].0).value) else None
  }

  /** A parent whose decimal id is a key of the payload is among the ids to update. */
  lemma NamedParentIsRequested(data: Payload, parent: int)
    requires AllIdsParse(data) && IntToString(parent) in Keys(data)
    ensures parent in IdsToUpdate(data).value
  {
    var k :| 0 <= k < |data| && data[k].0 == IntToString(parent);
    ParseIntRoundTrip(parent);
  }

  /**
   * The converse fails: a key with leading zeros is validated but names no
   * parent, because parents are matched by `str(parent.id)`.
   */
  lemma PaddedKeyNamesNoParent()
    ensures IdsToUpdate([("07", Int(1))]) == Some({7})
    ensures IntToString(7) !in Keys([("07", Int(1))])
  {
    var data: Payload := [("07", Int(1))];
    assert DecimalValue("07") == 7 by {
      assert "07"[..1] == "0";
      assert DecimalValue("0") == 0 by { assert "0"[..0] == ""; }
    }
    assert ParseInt(data[0].0) == Some(7);
    var ids := IdsToUpdate(data).value;
    forall n | n in ids
      ensures n == 7
    {
      var k :| 0 <= k < |data| && ParseInt(data[k].0) == Some(n);
      assert k == 0;
    }
    assert ids == {7};
    assert IntToString(7) == "7";
    assert Keys(data) == {"07"};
  }

  /** The response of `put`. */
  datatype PutResponse =
    | UnknownType(name: string)
    | InvalidId
    | Forbidden(badIds: set<int>)
    | InvalidEmail
    | ServerError
    | NoContent

  function StatusCode(r: PutResponse): int
  {
    match r
    case UnknownType(_) => 404
    case InvalidId => 400
    case Forbidden(_) => 403
    case InvalidEmail => 400
    case ServerError => 500
    case NoContent => 204
  }

  /** The parents a key's payload may name: the user's organizations or the user's projects. */
  function Parents(key: FineTuningKey, orgIds: seq<int>, projectIds: seq<int>): (r: seq<int>)
    ensures key == Deploy || key == Reports ==> r == orgIds
    ensures key == Alerts || key == Email || key == Workflow ==> r == projectIds
  {
    if ParentScope(key) == OrganizationScope then orgIds else projectIds
  }

  datatype Validated = Validated(key: FineTuningKey, parents: seq<int>, ids: set<int>)

  /** The checks `put` makes before it writes anything, in their order. */
  function ValidatePut(notificationType: string, data: Payload, orgIds: seq<int>, projectIds: seq<int>)
    : (r: Result<Validated, PutResponse>)
    ensures ParseFineTuningKey(notificationType).None? ==> r == Failure(UnknownType(notificationType))
    ensures ParseFineTuningKey(notificationType).Some? && IdsToUpdate(data).None? ==> r == Failure(InvalidId)
    ensures r.Failure? && r.error.Forbidden? <==>
              && ParseFineTuningKey(notificationType).Some? && IdsToUpdate(data).Some?
              && !(IdsToUpdate(data).value <= set p | p in Parents(ParseFineTuningKey(notificationType).value, orgIds, projectIds))
    ensures r.Failure? && r.error.Forbidden? ==>
              && r.error.badIds
                 == IdsToUpdate(data).value - (set p | p in Parents(ParseFineTuningKey(notificationType).value, orgIds, projectIds))
              && r.error.badIds != {}
    ensures r.Success? ==>
              && ParseFineTuningKey(notificationType) == Some(r.value.key)
              && IdsToUpdate(data) == Some(r.value.ids)
              && r.value.parents == Parents(r.value.key, orgIds, projectIds)
              && r.value.ids <= set p | p in r.value.parents
    ensures ParseFineTuningKey(notificationType).Some? && IdsToUpdate(data).Some?
            && IdsToUpdate(data).value <= (set p | p in Parents(ParseFineTuningKey(notificationType).value, orgIds, projectIds)) ==>
              r == Success(Validated(ParseFineTuningKey(notificationType).value,
                                     Parents(ParseFineTuningKey(notificationType).value, orgIds, projectIds),
                                     IdsToUpdate(data).value))
  {
    match ParseFineTuningKey(notificationType)
    case None => Failure(UnknownType(notificationType))
    case Some(key) =>
      match IdsToUpdate(data)
      case None => Failure(InvalidId)
      case Some(ids) =>
        var parents := Parents(key, orgIds, projectIds);
        var parentIds := set p | p in parents;
        if !(ids <= parentIds) then
          var bad :| bad in ids && bad !in parentIds;
          assert bad in ids - parentIds;
          Failure(Forbidden(ids - parentIds))
        else Success(Validated(key, parents, ids))
  }

  // ---------------------------------------------------------------------
  // The email path

  function EmailsToCheck(data: Payload): set<Value>
  {
    set k | 0 <= k < |data| :: data[k].1
  }

  /** The user's verified addresses among the values to check: the rows the query returns. */
  function MatchedEmails(verified: set<string>, toCheck: set<Value>): set<string>
  {
    set e | e in verified && Str(e) in toCheck
  }

  lemma {:induction false} StrImageSize(addresses: set<string>)
    ensures |set e | e in addresses :: Str(e)| == |addresses|
  {
    if addresses != {} {
      var e :| e in addresses;
      StrImageSize(addresses - {e});
      assert (set x | x in addresses :: Str(x)) == (set x | x in addresses - {e} :: Str(x)) + {Str(e)};
    }
  }

  /**
   * Comparing the two counts amounts to: every value to check is an address
   * the user has verified.
   */
  lemma EmailCountCheck(verified: set<string>, toCheck: set<Value>)
    ensures |MatchedEmails(verified, toCheck)| == |toCheck| <==>
            forall v :: v in toCheck ==> v.Str? && v.s in verified
  {
    var matched := MatchedEmails(verified, toCheck);
    var accepted := set v | v in toCheck && v.Str? && v.s in verified;
    StrImageSize(matched);
    assert (set e | e in matched :: Str(e)) == accepted;
    var rejected := toCheck - accepted;
    assert toCheck == accepted + rejected;
    assert accepted * rejected == {};
    assert |toCheck| == |accepted| + |rejected|;
    if rejected != {} {
      var v :| v in rejected;
      assert !(v.Str? && v.s in verified);
    }
  }

  /** The delivery address of each payload project, written item by item: the last item naming a project wins. */
  function ApplyEmails(options: map<int, string>, data: Payload): (r: map<int, string>)
    requires AllIdsParse(data)
    ensures options.Keys <= r.Keys
    ensures |data| > 0 ==> ParseInt(data[|data| - 1].0).value in r
                           && r[ParseInt(data[|data| - 1].0).value] == StrOf(data[|data| - 1].1)
  {
    if data == [] then options
    else
      var last := data[|data| - 1];
      ApplyEmails(options, data[..|data| - 1])[ParseInt(last.0).value := StrOf(last.1)]
  }

  /** The projects that have an address afterwards: those that had one, and every project the payload names. */
  lemma {:induction false} ApplyEmailsKeys(options: map<int, string>, data: Payload)
    requires AllIdsParse(data)
    ensures ApplyEmails(options, data).Keys == options.Keys + IdsToUpdate(data).value
  {
    if data != [] {
      var init, last := data[..|data| - 1], data[|data| - 1];
      assert AllIdsParse(init) by {
        forall k | 0 <= k < |init| ensures ParseInt(init[k].0).Some? {
          assert init[k] == data[k];
        }
      }
      ApplyEmailsKeys(options, init);
      var lastId := ParseInt(data[|data| - 1].0).value;
      var ids, initIds := IdsToUpdate(data).value, IdsToUpdate(init).value;
      forall p | p in ids ensures p in initIds || p == lastId {
        var k :| 0 <= k < |data| && ParseInt(data[k].0) == Some(p);
        if k != |data| - 1 {
          assert init[k] == data[k];
          assert ParseInt(init[k].0) == Some(p);
        }
      }
      forall p | p in initIds ensures p in ids {
        var k :| 0 <= k < |init| && ParseInt(init[k].0) == Some(p);
        assert data[k] == init[k];
      }
      assert lastId in ids by {
        assert ParseInt(data[|data| - 1].0) == Some(lastId);
      }
      assert IdsToUpdate(data).value == IdsToUpdate(init).value + {lastId};
      assert ApplyEmails(options, data) == ApplyEmails(options, init)[lastId := StrOf(last.1)];
    } else {
      assert IdsToUpdate(data).value == {};
    }
  }

  /** A project no payload key names keeps its address. */
  lemma {:induction false} ApplyEmailsFrame(options: map<int, string>, data: Payload, project: int)
    requires AllIdsParse(data)
    requires forall k :: 0 <= k < |data| ==> ParseInt(data[k].0) != Some(project)
    ensures project in ApplyEmails(options, data) <==> project in options
    ensures project in options ==> ApplyEmails(options, data)[project] == options[project]
  {
    if data != [] {
      ApplyEmailsFrame(options, data[..|data| - 1], project);
    }
  }

  /** A project named by item `k`, and by no later item, is set to `str` of that item's value. */
  lemma {:induction false} ApplyEmailsSets(options: map<int, string>, data: Payload, k: nat)
    requires AllIdsParse(data) && k < |data|
    requires forall j :: k < j < |data| ==> ParseInt(data[j].0) != ParseInt(data[k].0)
    ensures ParseInt(data[k].0).value in ApplyEmails(options, data)
    ensures ApplyEmails(options, data)[ParseInt(data[k].0).value] == StrOf(data[k].1)
  {
    if k < |data| - 1 {
      var init := data[..|data| - 1];
      assert init[k] == data[k];
      ApplyEmailsSets(options, init, k);
    }
  }

  // ---------------------------------------------------------------------
  // The notification-settings path

  /** `get_type_from_fine_tuning_key(key)`, kept symbolic. */
  datatype SettingType = TypeOf(key: FineTuningKey)

  /** `get_option_value_from_int(type, value)`, kept symbolic. */
  datatype SettingValue = OptionValueOf(settingType: SettingType, value: int)

  /** The `project` and `organization` arguments of one `update_settings` call, and the setting's type. */
  datatype SettingTarget = SettingTarget(project: Option<int>, organization: Option<int>, settingType: SettingType)

  /** Lines 149-153 as written: a project parent is passed as the organization, and the other way round. */
  function PartitionAsWritten(parentType: ScopeType, parent: int): (r: (Option<int>, Option<int>))
    ensures r == (Partition(parentType, parent).1, Partition(parentType, parent).0)
  {
    if parentType == ProjectScope then (None, Some(parent)) else (Some(parent), None)
  }

  /** For the "alerts" key, whose parents are projects, the as-written partition passes no project. */
  lemma PartitionAsWrittenMisfilesProjects(parent: int)
    ensures ParentScope(Alerts) == ProjectScope
    ensures PartitionAsWritten(ParentScope(Alerts), parent) == (None, Some(parent))
    ensures PartitionAsWritten(ParentScope(Alerts), parent) != Partition(ParentScope(Alerts), parent)
  {
  }

  /** The partition as intended: the parent is passed in the argument of its own scope. */
  function Partition(parentType: ScopeType, parent: int): (r: (Option<int>, Option<int>))
    ensures parentType == ProjectScope ==> r.0 == Some(parent) && r.1.None?
    ensures parentType == OrganizationScope ==> r.1 == Some(parent) && r.0.None?
  {
    if parentType == ProjectScope then (Some(parent), None) else (None, Some(parent))
  }

  function TargetFor(key: FineTuningKey, parent: int): SettingTarget
  {
    var (projectOption, organizationOption) := Partition(ParentScope(key), parent);
    SettingTarget(projectOption, organizationOption, TypeOf(key))
  }

  /** Different parents are written under different targets. */
  lemma TargetForInjective(key: FineTuningKey, p: int, q: int)
    requires TargetFor(key, p) == TargetFor(key, q)
    ensures p == q
  {
    var scope := ParentScope(key);
    if scope == ProjectScope {
      assert TargetFor(key, p).project == Some(p);
    } else {
      assert TargetFor(key, p).organization == Some(p);
    }
  }

  /**
   * The loop over the parents: each parent whose decimal id is a payload key
   * gets the option value of `int(data[key])`. A value that is not an
   * integer raises, and the transaction writes nothing (None).
   */
  function ApplySettings(settings: map<SettingTarget, SettingValue>, key: FineTuningKey, parents: seq<int>,
                         data: Payload): (r: Option<map<SettingTarget, SettingValue>>)
    ensures r.Some? ==> settings.Keys <= r.value.Keys
  {
    if parents == [] then Some(settings)
    else
      match ApplySettings(settings, key, parents[..|parents| - 1], data)
      case None => None
      case Some(updated) =>
        var parent := parents[|parents| - 1];
        if IntToString(parent) !in Keys(data) then Some(updated)
        else
          match IntOf(Lookup(data, IntToString(parent)))
          case None => None
          case Some(value) => Some(updated[TargetFor(key, parent) := OptionValueOf(TypeOf(key), value)])
  }

  /** Once an item raises, the whole update fails. */
  lemma {:induction false} ApplySettingsFailureSticks(settings: map<SettingTarget, SettingValue>, key: FineTuningKey,
                                                      parents: seq<int>, data: Payload, n: nat)
    requires n <= |parents|
    requires ApplySettings(settings, key, parents[..n], data).None?
    ensures ApplySettings(settings, key, parents, data).None?
  {
    if n < |parents| {
      var init := parents[..|parents| - 1];
      assert init[..n] == parents[..n];
      ApplySettingsFailureSticks(settings, key, init, data, n);
    } else {
      assert parents[..n] == parents;
    }
  }

  /** The targets of the parents the payload names. */
  function NamedTargets(key: FineTuningKey, parents: seq<int>, data: Payload): set<SettingTarget>
  {
    set p | p in parents && IntToString(p) in Keys(data) :: TargetFor(key, p)
  }

  /** The named targets of one more parent. */
  lemma NamedTargetsSnoc(key: FineTuningKey, init: seq<int>, last: int, data: Payload)
    ensures NamedTargets(key, init + [last], data)
            == NamedTargets(key, init, data) + (if IntToString(last) in Keys(data) then {TargetFor(key, last)} else {})
  {
    var parents := init + [last];
    var named, initNamed := NamedTargets(key, parents, data), NamedTargets(key, init, data);
    forall t | t in named ensures t in initNamed || (IntToString(last) in Keys(data) && t == TargetFor(key, last)) {
      var p :| p in parents && IntToString(p) in Keys(data) && t == TargetFor(key, p);
      if p != last {
        assert p in init;
      }
    }
    forall t | t in initNamed ensures t in named {
      var p :| p in init && IntToString(p) in Keys(data) && t == TargetFor(key, p);
      assert p in parents;
    }
    if IntToString(last) in Keys(data) {
      assert TargetFor(key, last) in named;
    }
  }

  /** The targets written: the ones present before, and one per parent the payload names. */
  lemma {:induction false} ApplySettingsKeys(settings: map<SettingTarget, SettingValue>, key: FineTuningKey,
                                             parents: seq<int>, data: Payload)
    requires ApplySettings(settings, key, parents, data).Some?
    ensures ApplySettings(settings, key, parents, data).value.Keys == settings.Keys + NamedTargets(key, parents, data)
  {
    if parents != [] {
      var init, last := parents[..|parents| - 1], parents[|parents| - 1];
      var before := ApplySettings(settings, key, init, data);
      var extra := if IntToString(last) in Keys(data) then {TargetFor(key, last)} else {};
      assert before.Some?;
      assert before.value.Keys == settings.Keys + NamedTargets(key, init, data) by {
        ApplySettingsKeys(settings, key, init, data);
      }
      assert NamedTargets(key, parents, data) == NamedTargets(key, init, data) + extra by {
        assert parents == init + [last];
        NamedTargetsSnoc(key, init, last, data);
      }
      var after := ApplySettings(settings, key, parents, data);
      if IntToString(last) in Keys(data) {
        var value := IntOf(Lookup(data, IntToString(last)));
        assert value.Some?;
        assert after.value == before.value[TargetFor(key, last) := OptionValueOf(TypeOf(key), value.value)];
      } else {
        assert after.value == before.value;
      }
    }
  }

  /** One more parent: the update so far, extended by that parent's write (or failing on its value). */
  lemma ApplySettingsStep(settings: map<SettingTarget, SettingValue>, key: FineTuningKey, parents: seq<int>,
                          data: Payload, k: nat, pending: map<SettingTarget, SettingValue>)
    requires k < |parents|
    requires ApplySettings(settings, key, parents[..k], data) == Some(pending)
    ensures IntToString(parents[k]) !in Keys(data) ==> ApplySettings(settings, key, parents[..k + 1], data) == Some(pending)
    ensures IntToString(parents[k]) in Keys(data) && IntOf(Lookup(data, IntToString(parents[k]))).None? ==>
              ApplySettings(settings, key, parents[..k + 1], data).None?
    ensures IntToString(parents[k]) in Keys(data) && IntOf(Lookup(data, IntToString(parents[k]))).Some? ==>
              ApplySettings(settings, key, parents[..k + 1], data)
              == Some(pending[TargetFor(key, parents[k])
                              := OptionValueOf(TypeOf(key), IntOf(Lookup(data, IntToString(parents[k]))).value)])
  {
    var prefix := parents[..k + 1];
    assert prefix[..|prefix| - 1] == parents[..k];
    assert prefix[|prefix| - 1] == parents[k];
  }

  /** Parents the payload does not name, and other targets, are left untouched. */
  lemma {:induction false} ApplySettingsFrame(settings: map<SettingTarget, SettingValue>, key: FineTuningKey,
                                              parents: seq<int>, data: Payload, target: SettingTarget)
    requires ApplySettings(settings, key, parents, data).Some?
    requires forall k :: 0 <= k < |parents| && IntToString(parents[k]) in Keys(data) ==> TargetFor(key, parents[k]) != target
    ensures target in ApplySettings(settings, key, parents, data).value <==> target in settings
    ensures target in settings ==> ApplySettings(settings, key, parents, data).value[target] == settings[target]
  {
    if parents != [] {
      ApplySettingsFrame(settings, key, parents[..|parents| - 1], data, target);
    }
  }

  /** A parent the payload names gets the option value of its payload value. */
  lemma {:induction false} ApplySettingsSets(settings: map<SettingTarget, SettingValue>, key: FineTuningKey,
                                             parents: seq<int>, data: Payload, k: nat)
    requires ApplySettings(settings, key, parents, data).Some?
    requires k < |parents| && IntToString(parents[k]) in Keys(data)
    ensures IntOf(Lookup(data, IntToString(parents[k]))).Some?
    ensures TargetFor(key, parents[k]) in ApplySettings(settings, key, parents, data).value
    ensures ApplySettings(settings, key, parents, data).value[TargetFor(key, parents[k])]
            == OptionValueOf(TypeOf(key), IntOf(Lookup(data, IntToString(parents[k]))).value)
  {
    var init := parents[..|parents| - 1];
    var last := parents[|parents| - 1];
    if k == |parents| - 1 {
    } else {
      assert init[k] == parents[k];
      ApplySettingsSets(settings, key, init, data, k);
      if IntToString(last) in Keys(data) && TargetFor(key, last) == TargetFor(key, parents[k]) {
        TargetForInjective(key, last, parents[k]);
      }
    }
  }

  // ---------------------------------------------------------------------
  // The endpoint

  /** The first `n` payload keys name projects that exist. */
  predicate ProjectsExist(data: Payload, n: nat, existingProjects: set<int>)
    requires AllIdsParse(data) && n <= |data|
  {
    forall j :: 0 <= j < n ==> ParseInt(data[j].0).value in existingProjects
  }

  lemma ProjectsExistStep(data: Payload, n: nat, existingProjects: set<int>)
    requires AllIdsParse(data) && n < |data|
    requires ProjectsExist(data, n, existingProjects) && ParseInt(data[n].0).value in existingProjects
    ensures ProjectsExist(data, n + 1, existingProjects)
  {
  }

  /** The user's stored options: the "mail:email" option per project, and the notification settings. */
  class NotificationStore {
    var mailEmail: map<int, string>
    var settings: map<SettingTarget, SettingValue>

    constructor (mailEmail: map<int, string>, settings: map<SettingTarget, SettingValue>)
      ensures this.mailEmail == mailEmail && this.settings == settings
    {
      this.mailEmail := mailEmail;
      this.settings := settings;
    }

    /**
     * `_handle_put_emails`: every value must be one of the user's verified
     * addresses; then each payload project's "mail:email" option is set to
     * `str(value)`. `existingProjects` are the ids the project lookup finds;
     * a payload id outside it raises, and nothing is written.
     */
    method HandlePutEmails(data: Payload, verifiedEmails: set<string>, existingProjects: set<int>)
      returns (response: PutResponse)
      requires AllIdsParse(data)
      modifies this
      ensures settings == old(settings)
      ensures |MatchedEmails(verifiedEmails, EmailsToCheck(data))| != |EmailsToCheck(data)| ==>
                response == InvalidEmail && mailEmail == old(mailEmail)
      ensures |MatchedEmails(verifiedEmails, EmailsToCheck(data))| == |EmailsToCheck(data)|
              && (exists k :: 0 <= k < |data| && ParseInt(data[k].0).value !in existingProjects) ==>
                response == ServerError && mailEmail == old(mailEmail)
      ensures |MatchedEmails(verifiedEmails, EmailsToCheck(data))| == |EmailsToCheck(data)|
              && (forall k :: 0 <= k < |data| ==> ParseInt(data[k].0).value in existingProjects) ==>
                response == NoContent && mailEmail == ApplyEmails(old(mailEmail), data)
    {
      var emailsToCheck := set k | 0 <= k < |data| :: data[k].1;
      var emails := set e | e in verifiedEmails && Str(e) in emailsToCheck;
      if |emails| != |emailsToCheck| {
        return InvalidEmail;
      }
      var pending := mailEmail;
      var k := 0;
      while k < |data|
        invariant 0 <= k <= |data|
        invariant ProjectsExist(data, k, existingProjects)
        invariant pending == ApplyEmails(old(mailEmail), data[..k])
        invariant mailEmail == old(mailEmail) && settings == old(settings)
      {
        var project := ParseInt(data[k].0).value;
        if project !in existingProjects {
          return ServerError;
        }
        ProjectsExistStep(data, k, existingProjects);
        assert ApplyEmails(old(mailEmail), data[..k + 1]) == ApplyEmails(old(mailEmail), data[..k])[project := StrOf(data[k].1)] by {
          assert data[..k + 1][..k] == data[..k];
        }
        pending := pending[project := StrOf(data[k].1)];
        k := k + 1;
      }
      assert data[..k] == data;
      mailEmail := pending;
      return NoContent;
    }

    /**
     * `_handle_put_notification_settings`: each parent whose decimal id is a
     * payload key gets its setting updated; the writes land together, or not
     * at all when a value raises.
     */
    method HandlePutNotificationSettings(key: FineTuningKey, parents: seq<int>, data: Payload)
      returns (response: PutResponse)
      modifies this
      ensures mailEmail == old(mailEmail)
      ensures ApplySettings(old(settings), key, parents, data).None? ==>
                response == ServerError && settings == old(settings)
      ensures ApplySettings(old(settings), key, parents, data).Some? ==>
                response == NoContent && settings == ApplySettings(old(settings), key, parents, data).value
    {
      var pending := settings;
      var k := 0;
      while k < |parents|
        invariant 0 <= k <= |parents|
        invariant ApplySettings(old(settings), key, parents[..k], data) == Some(pending)
        invariant mailEmail == old(mailEmail) && settings == old(settings)
      {
        var parent := parents[k];
        ApplySettingsStep(old(settings), key, parents, data, k, pending);
        var name := IntToString(parent);
        if name in Keys(data) {
          var value := IntOf(Lookup(data, name));
          if value.None? {
            ApplySettingsFailureSticks(old(settings), key, parents, data, k + 1);
            return ServerError;
          }
          var (projectOption, organizationOption) := Partition(ParentScope(key), parent);
          pending := pending[SettingTarget(projectOption, organizationOption, TypeOf(key))
                             := OptionValueOf(TypeOf(key), value.value)];
        }
        k := k + 1;
      }
      assert parents[..k] == parents;
      settings := pending;
      return NoContent;
    }

    /**
     * `put`: validate, then dispatch on the key. `orgIds` and `projectIds`
     * are the ids of the user's organizations and projects (every one of
     * which exists); `verifiedEmails` are the user's verified addresses.
     */
    method Put(notificationType: string, data: Payload, orgIds: seq<int>, projectIds: seq<int>,
               verifiedEmails: set<string>) returns (response: PutResponse)
      modifies this
      ensures var v := ValidatePut(notificationType, data, orgIds, projectIds);
              && (v.Failure? ==> response == v.error && mailEmail == old(mailEmail) && settings == old(settings)
                                 && StatusCode(response) in {404, 400, 403})
              && (v.Success? && v.value.key == Email ==>
                    && settings == old(settings)
                    && response != ServerError
                    && (|MatchedEmails(verifiedEmails, EmailsToCheck(data))| != |EmailsToCheck(data)| ==>
                          response == InvalidEmail && mailEmail == old(mailEmail))
                    && (|MatchedEmails(verifiedEmails, EmailsToCheck(data))| == |EmailsToCheck(data)| ==>
                          response == NoContent && mailEmail == ApplyEmails(old(mailEmail), data)))
              && (v.Success? && v.value.key != Email ==>
                    && mailEmail == old(mailEmail)
                    && var applied := ApplySettings(old(settings), v.value.key, v.value.parents, data);
                    && (applied.None? ==> response == ServerError && settings == old(settings))
                    && (applied.Some? ==> response == NoContent && settings == applied.value))
    {
      var validated := ValidatePut(notificationType, data, orgIds, projectIds);
      if validated.Failure? {
        return validated.error;
      }
      var v := validated.value;
      if v.key == Email {
        assert forall k :: 0 <= k < |data| ==> ParseInt(data[k].0).value in v.ids;
        response := HandlePutEmails(data, verifiedEmails, set p | p in projectIds);
        return;
      }
      response := HandlePutNotificationSettings(v.key, v.parents, data);
    }
  }
}
