/**
 * The overview tab of the exam editor
 * (`src/pages/Admin/ExamEditor/tabs/OverviewTab.jsx`): the security-settings
 * merge, the classroom-assignment toggle and the per-module enable and
 * duration edits, each handed to the store's `updateExam`.
 */
module OverviewTab {
  import opened JsValues
  import opened JsStrings
  import opened ExamEditor

  /** `exam.security_settings`, as the fields a spread of it yields (none when it is missing). */
  function Security(exam: Record): map<string, Value> {
    Fields(Get(exam, "security_settings"))
  }

  /** `assigned_classrooms` is missing, falsy or an array: the shapes the toggle handles. */
  predicate ClassroomsWellFormed(exam: Record) {
    var v := Get(Security(exam), "assigned_classrooms");
    !Truthy(v) || v.Arr?
  }

  /** `exam.security_settings?.assigned_classrooms || []`. */
  function AssignedClassrooms(exam: Record): (r: seq<Value>)
    requires ClassroomsWellFormed(exam)
    ensures !Truthy(Get(Security(exam), "assigned_classrooms")) ==> r == []
    ensures Get(Security(exam), "assigned_classrooms").Arr? ==> r == Get(Security(exam), "assigned_classrooms").items
  {
    var v := Get(Security(exam), "assigned_classrooms");
    if Truthy(v) then v.items else []
  }

  /** The checkbox of classroom `c`: `(assigned_classrooms || []).includes(c)`. */
  predicate Checked(exam: Record, c: Value)
    requires ClassroomsWellFormed(exam)
  {
    c in AssignedClassrooms(exam)
  }

  /** The update `updateSecurity(updates)` hands to `updateExam`: the old security settings with `updates` merged over them. */
  function SecurityUpdate(exam: Record, updates: map<string, Value>): (u: Record)
    ensures u.Keys == {"security_settings"}
    ensures Fields(u["security_settings"]) == Spread(Security(exam), updates)
  {
    map["security_settings" := Obj(Spread(Security(exam), updates))]
  }

  /**
   * After `updateSecurity(updates)` the named security keys hold the new
   * values, every other security key and every other exam field is as it was.
   */
  lemma SecurityUpdatePreserves(exam: Record, updates: map<string, Value>)
    ensures var r := ApplyExamUpdate(exam, SecurityUpdate(exam, updates));
      && r.Keys == exam.Keys + {"security_settings"}
      && (forall k :: k in exam && k != "security_settings" ==> r[k] == exam[k])
      && Security(r).Keys == Security(exam).Keys + updates.Keys
      && (forall k :: k in updates ==> Security(r)[k] == updates[k])
      && (forall k :: k in Security(exam) && k !in updates ==> Security(r)[k] == Security(exam)[k])
  {
  }

  /** The list after toggling `c`: every occurrence removed when present, appended at the end when absent. */
  function ToggledList(current: seq<Value>, c: Value): (r: seq<Value>)
    ensures c !in current ==> r == current + [c]
    ensures c in current ==> c !in r && |r| < |current|
    ensures c in current ==> forall i :: 0 <= i < |current| && current[i] != c ==> current[i] in r
    ensures forall i :: 0 <= i < |r| && r[i] != c ==> r[i] in current
  {
    if c in current then
      var r := Filter(current, (x: Value) => x != c);
      assert c !in r by {
        forall i | 0 <= i < |r| ensures r[i] != c { }
      }
      FilterShrinks(current, (x: Value) => x != c, c);
      r
    else current + [c]
  }

  /** A filter that drops an element of the list is strictly shorter. */
  lemma {:induction false} FilterShrinks<T>(s: seq<T>, keep: T -> bool, x: T)
    requires x in s && !keep(x)
    ensures |Filter(s, keep)| < |s|
  {
    if s[0] == x {
      assert |Filter(s[1..], keep)| <= |s[1..]|;
    } else {
      FilterShrinks(s[1..], keep, x);
    }
  }

  /** `toggleClassroom(c)`: the security update carrying the toggled list. */
  function ToggleUpdate(exam: Record, c: Value): Record
    requires ClassroomsWellFormed(exam)
  {
    SecurityUpdate(exam, map["assigned_classrooms" := Arr(ToggledList(AssignedClassrooms(exam), c))])
  }

  /** Toggling flips the checkbox of that classroom. */
  lemma ToggleFlipsCheckbox(exam: Record, c: Value)
    requires ClassroomsWellFormed(exam)
    ensures ClassroomsWellFormed(ApplyExamUpdate(exam, ToggleUpdate(exam, c)))
    ensures Checked(ApplyExamUpdate(exam, ToggleUpdate(exam, c)), c) <==> !Checked(exam, c)
  {
    var r := ApplyExamUpdate(exam, ToggleUpdate(exam, c));
    assert Get(Security(r), "assigned_classrooms") == Arr(ToggledList(AssignedClassrooms(exam), c));
  }

  /** Toggling an absent classroom twice gives back exactly the list it started from. */
  lemma ToggleTwiceFromAbsent(l: seq<Value>, c: Value)
    requires c !in l
    ensures ToggledList(ToggledList(l, c), c) == l
  {
    var keep := (x: Value) => x != c;
    FilterAppend(l, [c], keep);
    FilterKeepsAll(l, keep);
    assert Filter([c], keep) == [];
  }

  /** Toggling a present classroom twice keeps it assigned but moves its single occurrence to the end. */
  lemma ToggleTwiceFromPresent(l: seq<Value>, c: Value)
    requires c in l
    ensures ToggledList(ToggledList(l, c), c) == Filter(l, (x: Value) => x != c) + [c]
  {
  }

  /** `newConfig[module][key] = value` on a shallow copy of `modules_config`, as the update handed to `updateExam`. */
  function ModuleSettingUpdate(exam: Record, moduleName: string, key: string, value: Value): (u: Record)
    ensures u.Keys == {"modules_config"}
  {
    var config := Fields(Get(exam, "modules_config"));
    var entry := Fields(Get(config, moduleName));
    map["modules_config" := Obj(config[moduleName := Obj(entry[key := value])])]
  }

  /** The handlers run only on a rendered row, whose `modules_config[module]` is an object. */
  predicate HasModuleConfig(exam: Record, moduleName: string) {
    Get(exam, "modules_config").Obj? && Get(Fields(Get(exam, "modules_config")), moduleName).Obj?
  }

  /**
   * A module edit changes only `modules_config[module][key]`: every other
   * exam field, every other module's entry and every other key of that
   * module's entry is as it was.
   */
  lemma ModuleSettingChangesOnlyThatKey(exam: Record, moduleName: string, key: string, value: Value)
    requires HasModuleConfig(exam, moduleName)
    ensures var r := ApplyExamUpdate(exam, ModuleSettingUpdate(exam, moduleName, key, value));
      var before := Fields(Get(exam, "modules_config"));
      var after := Fields(Get(r, "modules_config"));
      && r.Keys == exam.Keys
      && (forall k :: k in exam && k != "modules_config" ==> r[k] == exam[k])
      && after.Keys == before.Keys
      && (forall m :: m in before && m != moduleName ==> after[m] == before[m])
      && Fields(after[moduleName]) == Fields(before[moduleName])[key := value]
  {
  }

  /** The duration field stores `parseInt(text)`: a typed number is stored as that number. */
  lemma DurationEditStoresTypedNumber(exam: Record, moduleName: string, minutes: nat)
    requires HasModuleConfig(exam, moduleName)
    ensures var r := ApplyExamUpdate(exam, ModuleSettingUpdate(exam, moduleName, "duration", ParseInt(DecimalString(minutes))));
      Get(Fields(Get(Fields(Get(r, "modules_config")), moduleName)), "duration") == Num(minutes)
  {
    ParseIntRoundTrip(minutes);
  }

  /** `updateSecurity(updates)`. */
  method UpdateSecurity(store: EditorStore, updates: map<string, Value>)
    modifies store`exam
    ensures store.exam == ApplyExamUpdate(old(store.exam), SecurityUpdate(old(store.exam), updates))
  {
    store.UpdateExam(SecurityUpdate(store.exam, updates));
  }

  /** `toggleClassroom(c)`. */
  method ToggleClassroom(store: EditorStore, c: Value)
    requires ClassroomsWellFormed(store.exam)
    modifies store`exam
    ensures store.exam == ApplyExamUpdate(old(store.exam), ToggleUpdate(old(store.exam), c))
  {
    var current := AssignedClassrooms(store.exam);
    var updated;
    if c in current {
      updated := Filter(current, (x: Value) => x != c);
    } else {
      updated := current + [c];
    }
    UpdateSecurity(store, map["assigned_classrooms" := Arr(updated)]);
  }

  /** The enable checkbox of a module row. */
  method SetModuleEnabled(store: EditorStore, moduleName: string, checked: bool)
    requires HasModuleConfig(store.exam, moduleName)
    modifies store`exam
    ensures store.exam == ApplyExamUpdate(old(store.exam), ModuleSettingUpdate(old(store.exam), moduleName, "enabled", Bool(checked)))
  {
    var newConfig := Fields(Get(store.exam, "modules_config"));
    var entry := Fields(newConfig[moduleName]);
    entry := entry["enabled" := Bool(checked)];
    newConfig := newConfig[moduleName := Obj(entry)];
    store.UpdateExam(map["modules_config" := Obj(newConfig)]);
  }

  /** The duration field of a module row: `parseInt` of the typed text. */
  method SetModuleDuration(store: EditorStore, moduleName: string, text: string)
    requires HasModuleConfig(store.exam, moduleName)
    modifies store`exam
    ensures store.exam == ApplyExamUpdate(old(store.exam), ModuleSettingUpdate(old(store.exam), moduleName, "duration", ParseInt(text)))
  {
    var newConfig := Fields(Get(store.exam, "modules_config"));
    var entry := Fields(newConfig[moduleName]);
    entry := entry["duration" := ParseInt(text)];
    newConfig := newConfig[moduleName := Obj(entry)];
    store.UpdateExam(map["modules_config" := Obj(newConfig)]);
  }
}
