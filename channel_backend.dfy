/**
 * `Channel::afterSave`, the backend model of the channel setting: once a
 * non-empty channel id is saved, the channel's active source is fetched, it
 * is classified as a Magento source or not, the custom fields that hold the
 * special-price dates are searched for, and what was found about the source
 * is written to the configuration.
 */
module ChannelBackend {
  import opened Wrappers
  import opened PhpStrings
  import opened PhpValues
  import opened Transport
  import opened ApiClient

  const SourceIsMagentoPath := "stellion_pricemind/api/source_is_magento"
  const SourceTypePath := "stellion_pricemind/api/source_type"
  const SourceTitlePath := "stellion_pricemind/api/source_title"

  /** `ScopeInterface::SCOPE_WEBSITES` and `ScopeConfigInterface::SCOPE_TYPE_DEFAULT`. */
  const WebsitesScope := "websites"
  const DefaultScopeName := "default"

  /** One `WriterInterface::save($path, $value, $scope, $scopeId)`. */
  datatype ConfigWrite = ConfigWrite(path: string, value: string, scope: string, scopeId: int)

  /** The scope and scope id the results are written at. */
  datatype WriteTarget = WriteTarget(scope: string, scopeId: int)

  // ---------------------------------------------------------------------------
  // Scope selection
  // ---------------------------------------------------------------------------

  /** The website code: the scope code when the setting is saved at websites scope, none otherwise. */
  function WebsiteCodeOf(scope: string, scopeCode: Option<string>): (code: Option<string>)
    ensures scope == WebsitesScope ==> code == Some(PhpStrings.Str(scopeCode))
    ensures scope != WebsitesScope ==> code.None?
  {
    if scope == WebsitesScope then Some(PhpStrings.Str(scopeCode)) else None
  }

  /**
   * Websites scope with the integer cast of the scope id exactly when the
   * website code is truthy; the default scope with id 0 otherwise.
   */
  function TargetOf(websiteCode: Option<string>, scopeId: Value): (t: WriteTarget)
    ensures t.scope == WebsitesScope <==> Truthy(websiteCode)
    ensures t.scope == WebsitesScope ==> t.scopeId == ToInteger(scopeId)
    ensures t.scope != WebsitesScope ==> t == WriteTarget(DefaultScopeName, 0)
  {
    if Truthy(websiteCode) then WriteTarget(WebsitesScope, ToInteger(scopeId))
    else WriteTarget(DefaultScopeName, 0)
  }

  // ---------------------------------------------------------------------------
  // Reading the active source
  // ---------------------------------------------------------------------------

  /** `isset($v[name]) && is_array($v[name]) ? $v[name] : []`. */
  function ArrayMember(v: Value, name: string): (m: Value)
    ensures m.Arr?
    ensures Get(v, name).Some? && Get(v, name).value.Arr? ==> m == Get(v, name).value
    ensures !(Get(v, name).Some? && Get(v, name).value.Arr?) ==> m == Arr([])
  {
    if Isset(v, name) && Get(v, name).value.Arr? then Get(v, name).value else Arr([])
  }

  /** `$source['config']['mapping']`, each level replaced by `[]` when it is not an array. */
  function MappingOf(source: Value): Value {
    ArrayMember(ArrayMember(source, "config"), "mapping")
  }

  /** `(string)($source['type'] ?? '')`. */
  function SourceType(source: Value): string {
    ToStr(GetOr(source, "type", Str("")))
  }

  /** `(string)($source['title'] ?? '')`. */
  function SourceTitle(source: Value): string {
    ToStr(GetOr(source, "title", Str("")))
  }

  /**
   * The Magento heuristic: the type is `magento` in any letter case, or the
   * title is exactly `Magento`, or the mapping's `sku_attribute` is the
   * string `sku`.
   */
  predicate IsMagentoSource(source: Value) {
    || ToLower(SourceType(source)) == "magento"
    || SourceTitle(source) == "Magento"
    || Get(MappingOf(source), "sku_attribute") == Some(Str("sku"))
  }

  /**
   * Letter case in the type does not matter: every spelling of `magento`
   * in any mix of cases (all those that upper-case to `MAGENTO`) makes the
   * source a Magento source.
   */
  lemma MagentoTypeAnyCase(source: Value)
    requires ToUpper(SourceType(source)) == "MAGENTO"
    ensures IsMagentoSource(source)
  {
    LowerOfUpper(SourceType(source));
    assert ToLower("MAGENTO") == "magento";
  }

  // ---------------------------------------------------------------------------
  // Machine-name detection
  // ---------------------------------------------------------------------------

  /** `(string)($mapping['special_price'][name] ?? '')` when `special_price` is an array, `''` otherwise. */
  function SpecialPriceAttr(mapping: Value, name: string): (attr: string)
    ensures !Isset(mapping, "special_price") ==> attr == ""
    ensures Isset(mapping, "special_price") && !Get(mapping, "special_price").value.Arr? ==> attr == ""
    ensures Isset(mapping, "special_price") && Get(mapping, "special_price").value.Arr? ==>
              attr == (if Isset(Get(mapping, "special_price").value, name)
                       then ToStr(Get(Get(mapping, "special_price").value, name).value) else "")
  {
    if Isset(mapping, "special_price") && Get(mapping, "special_price").value.Arr? then
      ToStr(GetOr(Get(mapping, "special_price").value, name, Str("")))
    else ""
  }

  /** The custom-field map: `custom_field` unless it is empty, then `custom_fields` when set. */
  function CustomFieldMap(mapping: Value): (cf: Value)
    ensures Isset(mapping, "custom_field") && !IsEmpty(Get(mapping, "custom_field").value) ==>
              cf == Get(mapping, "custom_field").value
    ensures (!Isset(mapping, "custom_field") || IsEmpty(Get(mapping, "custom_field").value)) ==>
              cf == (if Isset(mapping, "custom_fields") then Get(mapping, "custom_fields").value
                     else GetOr(mapping, "custom_field", Arr([])))
  {
    var first := if Isset(mapping, "custom_field") then Get(mapping, "custom_field").value else Arr([]);
    if IsEmpty(first) && Isset(mapping, "custom_fields") then Get(mapping, "custom_fields").value else first
  }

  /** Stage 1, an `attribute => machine_name` map: the string stored under the attribute. */
  function DirectCandidate(cfMap: Value, attr: string): string {
    if cfMap.Arr? && attr != "" && Isset(cfMap, attr) && Get(cfMap, attr).value.Str? then Get(cfMap, attr).value.s
    else ""
  }

  /** An entry of a `machine_name => attribute` map naming the attribute. */
  predicate InverseMatches(entry: (Key, Value), attr: string) {
    entry.0.StrKey? && entry.1 == Str(attr)
  }

  /** The key of the first entry at or after `j` that names the attribute. */
  function InverseFrom(entries: seq<(Key, Value)>, attr: string, j: nat): string
    decreases |entries| - j
  {
    if j >= |entries| then ""
    else if InverseMatches(entries[j], attr) then entries[j].0.s
    else InverseFrom(entries, attr, j + 1)
  }

  /** Stage 2, a `machine_name => attribute` map: the first key whose value is the attribute. */
  function InverseCandidate(cfMap: Value, attr: string): string {
    if cfMap.Arr? && attr != "" then InverseFrom(cfMap.entries, attr, 0) else ""
  }

  /** `isset($item[name]) ? (string)$item[name] : ''`. */
  function ItemField(item: Value, name: string): string {
    if Isset(item, name) then ToStr(Get(item, name).value) else ""
  }

  /** An item of an `{attribute, machine_name}` list with both set and the attribute wanted. */
  predicate ListItemMatches(item: Value, attr: string) {
    && item.Arr?
    && ItemField(item, "attribute") != ""
    && ItemField(item, "machine_name") != ""
    && ItemField(item, "attribute") == attr
  }

  /** The machine name of the first matching item at or after `j`. */
  function ListFrom(entries: seq<(Key, Value)>, attr: string, j: nat): string
    decreases |entries| - j
  {
    if j >= |entries| then ""
    else if ListItemMatches(entries[j].1, attr) then ItemField(entries[j].1, "machine_name")
    else ListFrom(entries, attr, j + 1)
  }

  /** Stage 3, a list of `{attribute, machine_name}` objects: the first one for the attribute. */
  function ListCandidate(cfMap: Value, attr: string): string {
    if cfMap.Arr? then ListFrom(cfMap.entries, attr, 0) else ""
  }

  /** Stage 4: `(string)$mapping['special_price'][name]` when set. */
  function ExplicitCandidate(mapping: Value, name: string): string {
    var sp := Get(mapping, "special_price");
    if sp.Some? && Isset(sp.value, name) then ToStr(Get(sp.value, name).value) else ""
  }

  /** The first non-empty name, or `''`. */
  function FirstNonEmpty(names: seq<string>): (name: string)
    ensures name == "" <==> forall i :: 0 <= i < |names| ==> names[i] == ""
  {
    if names == [] then "" else if names[0] != "" then names[0] else FirstNonEmpty(names[1..])
  }

  /** The first non-empty name is the one at the first non-empty position. */
  lemma {:induction false} FirstNonEmptyAt(names: seq<string>, k: nat)
    requires k < |names| && names[k] != ""
    requires forall i :: 0 <= i < k ==> names[i] == ""
    ensures FirstNonEmpty(names) == names[k]
  {
    if k > 0 {
      FirstNonEmptyAt(names[1..], k - 1);
    }
  }

  /** `$holder === '' ? $candidate : $holder`: a stage that only runs while the holder is empty. */
  function OrElse(holder: string, candidate: string): string {
    if holder != "" then holder else candidate
  }

  /** Trying five candidates in turn is taking the first non-empty one. */
  lemma FirstNonEmptyOfFive(a: string, b: string, c: string, d: string, e: string)
    ensures FirstNonEmpty([a, b, c, d, e]) == OrElse(OrElse(OrElse(OrElse(a, b), c), d), e)
  {
    var s := [a, b, c, d, e];
    if a != "" {
      FirstNonEmptyAt(s, 0);
    } else if b != "" {
      FirstNonEmptyAt(s, 1);
    } else if c != "" {
      FirstNonEmptyAt(s, 2);
    } else if d != "" {
      FirstNonEmptyAt(s, 3);
    } else if e != "" {
      FirstNonEmptyAt(s, 4);
    }
  }

  /**
   * The candidates in the order they are tried: direct map, inverse map,
   * list of objects, explicit name, the attribute name itself.
   */
  function Candidates(mapping: Value, attrName: string, explicitName: string): seq<string> {
    var attr := SpecialPriceAttr(mapping, attrName);
    var cf := CustomFieldMap(mapping);
    [DirectCandidate(cf, attr), InverseCandidate(cf, attr), ListCandidate(cf, attr),
     ExplicitCandidate(mapping, explicitName), attr]
  }

  /** The machine name detected for one end of the special-price period. */
  function DetectedName(mapping: Value, attrName: string, explicitName: string): string {
    FirstNonEmpty(Candidates(mapping, attrName, explicitName))
  }

  /** A configured attribute always yields a machine name: the fallback is the attribute itself. */
  lemma DetectedWhenAttributeSet(mapping: Value, attrName: string, explicitName: string)
    requires SpecialPriceAttr(mapping, attrName) != ""
    ensures DetectedName(mapping, attrName, explicitName) != ""
  {
    assert Candidates(mapping, attrName, explicitName)[4] != "";
  }

  /** The candidate at position `k` wins exactly when every earlier candidate is empty. */
  lemma DetectedPrecedence(mapping: Value, attrName: string, explicitName: string, k: nat)
    requires k < 5
    requires Candidates(mapping, attrName, explicitName)[k] != ""
    requires forall i :: 0 <= i < k ==> Candidates(mapping, attrName, explicitName)[i] == ""
    ensures DetectedName(mapping, attrName, explicitName) == Candidates(mapping, attrName, explicitName)[k]
  {
    FirstNonEmptyAt(Candidates(mapping, attrName, explicitName), k);
  }

  /** The inverse search stops at the first entry naming the attribute. */
  lemma {:induction false} InverseFindsFirst(entries: seq<(Key, Value)>, attr: string, j: nat, k: nat)
    requires j <= k < |entries| && InverseMatches(entries[k], attr)
    requires forall m :: j <= m < k ==> !InverseMatches(entries[m], attr)
    ensures InverseFrom(entries, attr, j) == entries[k].0.s
    decreases k - j
  {
    if j < k {
      InverseFindsFirst(entries, attr, j + 1, k);
    }
  }

  /** The list search stops at the first item for the attribute. */
  lemma {:induction false} ListFindsFirst(entries: seq<(Key, Value)>, attr: string, j: nat, k: nat)
    requires j <= k < |entries| && ListItemMatches(entries[k].1, attr)
    requires forall m :: j <= m < k ==> !ListItemMatches(entries[m].1, attr)
    ensures ListFrom(entries, attr, j) == ItemField(entries[k].1, "machine_name")
    decreases k - j
  {
    if j < k {
      ListFindsFirst(entries, attr, j + 1, k);
    }
  }

  /** `foreach ($cfMap as $k => $v)` with `break` at the first key naming the attribute. */
  method FindInverse(entries: seq<(Key, Value)>, attr: string) returns (name: string)
    ensures name == InverseFrom(entries, attr, 0)
  {
    name := "";
    var j := 0;
    while j < |entries|
      invariant 0 <= j <= |entries|
      invariant InverseFrom(entries, attr, 0) == InverseFrom(entries, attr, j)
    {
      var (k, v) := entries[j];
      if k.StrKey? && v.Str? && v.s == attr {
        name := k.s;
        return;
      }
      j := j + 1;
    }
  }

  /**
   * The list stage: one pass over the items for both ends, each end taking
   * the first matching item while it is still empty, stopping once both
   * are found.
   */
  method ScanList(entries: seq<(Key, Value)>, fromAttr: string, toAttr: string, from0: string, to0: string)
    returns (fromMachine: string, toMachine: string)
    ensures fromMachine == (if from0 != "" then from0 else ListFrom(entries, fromAttr, 0))
    ensures toMachine == (if to0 != "" then to0 else ListFrom(entries, toAttr, 0))
  {
    fromMachine, toMachine := from0, to0;
    if fromMachine != "" && toMachine != "" {
      return;
    }
    var j := 0;
    while j < |entries|
      invariant 0 <= j <= |entries|
      invariant (if from0 != "" then from0 else ListFrom(entries, fromAttr, 0))
                == (if fromMachine != "" then fromMachine else ListFrom(entries, fromAttr, j))
      invariant (if to0 != "" then to0 else ListFrom(entries, toAttr, 0))
                == (if toMachine != "" then toMachine else ListFrom(entries, toAttr, j))
    {
      var item := entries[j].1;
      if !item.Arr? {
        j := j + 1;
        continue;
      }
      var attr := ItemField(item, "attribute");
      var machine := ItemField(item, "machine_name");
      if attr == "" || machine == "" {
        j := j + 1;
        continue;
      }
      if fromMachine == "" && fromAttr != "" && attr == fromAttr {
        fromMachine := machine;
      }
      if toMachine == "" && toAttr != "" && attr == toAttr {
        toMachine := machine;
      }
      if fromMachine != "" && toMachine != "" {
        return;
      }
      j := j + 1;
    }
  }

  /** The special-price attributes: `from_attribute` and `to_attribute` of an array `special_price`. */
  method ReadSpecialPriceAttrs(mapping: Value) returns (fromAttr: string, toAttr: string)
    ensures fromAttr == SpecialPriceAttr(mapping, "from_attribute")
    ensures toAttr == SpecialPriceAttr(mapping, "to_attribute")
    ensures !(Isset(mapping, "special_price") && Get(mapping, "special_price").value.Arr?) ==> fromAttr == "" && toAttr == ""
  {
    fromAttr, toAttr := "", "";
    if Isset(mapping, "special_price") && Get(mapping, "special_price").value.Arr? {
      var sp := Get(mapping, "special_price").value;
      fromAttr := ToStr(GetOr(sp, "from_attribute", Str("")));
      toAttr := ToStr(GetOr(sp, "to_attribute", Str("")));
    }
  }

  /** `$cfMap`: `custom_field`, replaced by `custom_fields` when empty. */
  method ReadCustomFieldMap(mapping: Value) returns (cfMap: Value)
    ensures cfMap == CustomFieldMap(mapping)
  {
    cfMap := Arr([]);
    if Isset(mapping, "custom_field") {
      cfMap := Get(mapping, "custom_field").value;
    }
    if IsEmpty(cfMap) && Isset(mapping, "custom_fields") {
      cfMap := Get(mapping, "custom_fields").value;
    }
  }

  /** The three stages that search the custom-field map, for both ends. */
  method SearchCustomFieldMap(cfMap: Value, fromAttr: string, toAttr: string)
    returns (fromMachine: string, toMachine: string)
    ensures fromMachine == OrElse(OrElse(DirectCandidate(cfMap, fromAttr), InverseCandidate(cfMap, fromAttr)),
                                  ListCandidate(cfMap, fromAttr))
    ensures toMachine == OrElse(OrElse(DirectCandidate(cfMap, toAttr), InverseCandidate(cfMap, toAttr)),
                                ListCandidate(cfMap, toAttr))
  {
    fromMachine, toMachine := "", "";
    if !cfMap.Arr? {
      return;
    }
    fromMachine := DirectCandidate(cfMap, fromAttr);
    toMachine := DirectCandidate(cfMap, toAttr);
    if fromMachine == "" && fromAttr != "" {
      fromMachine := FindInverse(cfMap.entries, fromAttr);
    }
    if toMachine == "" && toAttr != "" {
      toMachine := FindInverse(cfMap.entries, toAttr);
    }
    if fromMachine == "" || toMachine == "" {
      fromMachine, toMachine := ScanList(cfMap.entries, fromAttr, toAttr, fromMachine, toMachine);
    }
  }

  /** The last two stages for one end: the explicit name, then the attribute itself. */
  method ApplyFallbacks(holder: string, mapping: Value, explicitName: string, attr: string) returns (name: string)
    ensures name == OrElse(OrElse(holder, ExplicitCandidate(mapping, explicitName)), attr)
  {
    name := holder;
    if name == "" {
      name := ExplicitCandidate(mapping, explicitName);
    }
    if name == "" && attr != "" {
      name := attr;
    }
  }

  /**
   * The detection block of `afterSave`: the stages run one after another,
   * each only while its holder is still empty.
   */
  method DetectMachineNames(mapping: Value) returns (fromMachine: string, toMachine: string)
    ensures fromMachine == DetectedName(mapping, "from_attribute", "from_custom_field")
    ensures toMachine == DetectedName(mapping, "to_attribute", "to_custom_field")
  {
    var fromAttr, toAttr := ReadSpecialPriceAttrs(mapping);
    var cfMap := ReadCustomFieldMap(mapping);
    fromMachine, toMachine := SearchCustomFieldMap(cfMap, fromAttr, toAttr);
    fromMachine := ApplyFallbacks(fromMachine, mapping, "from_custom_field", fromAttr);
    toMachine := ApplyFallbacks(toMachine, mapping, "to_custom_field", toAttr);
    FirstNonEmptyOfFive(DirectCandidate(cfMap, fromAttr), InverseCandidate(cfMap, fromAttr),
      ListCandidate(cfMap, fromAttr), ExplicitCandidate(mapping, "from_custom_field"), fromAttr);
    FirstNonEmptyOfFive(DirectCandidate(cfMap, toAttr), InverseCandidate(cfMap, toAttr),
      ListCandidate(cfMap, toAttr), ExplicitCandidate(mapping, "to_custom_field"), toAttr);
  }

  // ---------------------------------------------------------------------------
  // What is written
  // ---------------------------------------------------------------------------

  /**
   * The writes `afterSave` issues, in order: always the Magento flag as
   * `'1'`/`'0'`, then the type and the title, each only when non-empty.
   */
  function WritesFor(target: WriteTarget, isMagento: bool, sourceType: string, sourceTitle: string): seq<ConfigWrite> {
    [ConfigWrite(SourceIsMagentoPath, if isMagento then "1" else "0", target.scope, target.scopeId)]
    + (OptionalWrite(SourceTypePath, sourceType, target) + OptionalWrite(SourceTitlePath, sourceTitle, target))
  }

  /** The write of a value at `path` that is skipped when the value is empty. */
  function OptionalWrite(path: string, value: string, target: WriteTarget): seq<ConfigWrite> {
    if value != "" then [ConfigWrite(path, value, target.scope, target.scopeId)] else []
  }

  /**
   * The writes: one to three, all at the target scope, the flag first and
   * always `'1'` or `'0'`; the type and title appear exactly when non-empty,
   * with the values found; no other path (no detected machine name) is ever
   * written.
   */
  lemma WritesShape(target: WriteTarget, isMagento: bool, sourceType: string, sourceTitle: string)
    ensures var w := WritesFor(target, isMagento, sourceType, sourceTitle);
            && 1 <= |w| <= 3
            && w[0] == ConfigWrite(SourceIsMagentoPath, if isMagento then "1" else "0", target.scope, target.scopeId)
            && (forall i :: 0 <= i < |w| ==> w[i].scope == target.scope && w[i].scopeId == target.scopeId)
            && (forall i :: 0 <= i < |w| ==> w[i].path in {SourceIsMagentoPath, SourceTypePath, SourceTitlePath})
            && (sourceType != "" <==> exists i :: 0 <= i < |w| && w[i].path == SourceTypePath)
            && (sourceTitle != "" <==> exists i :: 0 <= i < |w| && w[i].path == SourceTitlePath)
            && (forall i :: 0 <= i < |w| && w[i].path == SourceTypePath ==> w[i].value == sourceType)
            && (forall i :: 0 <= i < |w| && w[i].path == SourceTitlePath ==> w[i].value == sourceTitle)
  {
    var w := WritesFor(target, isMagento, sourceType, sourceTitle);
    if sourceType != "" {
      assert w[1].path == SourceTypePath;
    }
    if sourceTitle != "" {
      assert w[|w| - 1].path == SourceTitlePath;
    }
  }

  /**
   * The writes for a fetched source: the Magento verdict, type and title of
   * the source when the API gave an array, `'0'` and nothing else otherwise.
   */
  function PlannedWrites(source: Option<Value>, target: WriteTarget): seq<ConfigWrite> {
    var known := source.Some? && source.value.Arr?;
    WritesFor(target, known && IsMagentoSource(source.value),
              if known then SourceType(source.value) else "",
              if known then SourceTitle(source.value) else "")
  }

  /** Without a usable source only the flag is written, as `'0'`. */
  lemma NoSourceWritesFlagOnly(source: Option<Value>, target: WriteTarget)
    requires source.None? || !source.value.Arr?
    ensures PlannedWrites(source, target) == [ConfigWrite(SourceIsMagentoPath, "0", target.scope, target.scopeId)]
  {
  }

  /** The writes that reach the store: those before the first one the writer rejects. */
  function Persisted(writes: seq<ConfigWrite>, rejects: ConfigWrite -> bool): seq<ConfigWrite> {
    if writes == [] || rejects(writes[0]) then []
    else [writes[0]] + Persisted(writes[1..], rejects)
  }

  /** What reaches the store is the longest prefix of the writes that the writer accepts. */
  lemma {:induction false} PersistedIsAcceptedPrefix(writes: seq<ConfigWrite>, rejects: ConfigWrite -> bool)
    ensures var done := Persisted(writes, rejects);
            && |done| <= |writes| && done == writes[..|done|]
            && (forall i :: 0 <= i < |done| ==> !rejects(done[i]))
            && (|done| < |writes| ==> rejects(writes[|done|]))
  {
    if writes != [] && !rejects(writes[0]) {
      PersistedIsAcceptedPrefix(writes[1..], rejects);
      var rest := Persisted(writes[1..], rejects);
      assert writes == [writes[0]] + writes[1..];
      assert [writes[0]] + rest == writes[..|rest| + 1];
    }
  }

  /** A write goes through, and the rest are tried, exactly when the writer accepts it. */
  lemma PersistedCons(w: ConfigWrite, rest: seq<ConfigWrite>, rejects: ConfigWrite -> bool)
    ensures Persisted([w] + rest, rejects) == if rejects(w) then [] else [w] + Persisted(rest, rejects)
  {
    assert ([w] + rest)[1..] == rest;
  }

  class ConfigWriter {
    /** The writes the store refuses by throwing. */
    const rejects: ConfigWrite -> bool
    var saved: seq<ConfigWrite>

    constructor (rejects: ConfigWrite -> bool)
      ensures this.rejects == rejects && saved == []
    {
      this.rejects := rejects;
      saved := [];
    }

    /** `save`: stores the write, or throws (reported as `false`) and stores nothing. */
    method Save(w: ConfigWrite) returns (ok: bool)
      modifies this`saved
      ensures ok == !rejects(w)
      ensures saved == old(saved) + (if ok then [w] else [])
    {
      ok := !rejects(w);
      if ok {
        saved := saved + [w];
      }
    }
  }

  /**
   * The inspection of a fetched source in `afterSave`: its type and title,
   * the Magento heuristic, and the machine-name detection, whose results are
   * computed and then dropped since nothing persists them.
   */
  method InspectSource(source: Value) returns (isMagento: bool, sourceType: string, sourceTitle: string)
    ensures isMagento == IsMagentoSource(source)
    ensures sourceType == SourceType(source) && sourceTitle == SourceTitle(source)
  {
    sourceType := SourceType(source);
    sourceTitle := SourceTitle(source);
    var mapping := MappingOf(source);
    isMagento := false;
    if ToLower(sourceType) == "magento" || sourceTitle == "Magento" {
      isMagento := true;
    } else if Isset(mapping, "sku_attribute") && Get(mapping, "sku_attribute").value == Str("sku") {
      isMagento := true;
    }
    var fromMachine, toMachine := DetectMachineNames(mapping);
  }

  /** The configuration value being saved, with the collaborators `afterSave` uses. */
  class ChannelSetting {
    const client: Client
    const writer: ConfigWriter
    /** `getValue()`, `getScope()`, `getScopeCode()` and `getScopeId()`. */
    const value: Option<string>
    const scope: string
    const scopeCode: Option<string>
    const scopeId: Value

    constructor (client: Client, writer: ConfigWriter, value: Option<string>, scope: string,
                 scopeCode: Option<string>, scopeId: Value)
      ensures this.client == client && this.writer == writer && this.value == value
      ensures this.scope == scope && this.scopeCode == scopeCode && this.scopeId == scopeId
    {
      this.client := client;
      this.writer := writer;
      this.value := value;
      this.scope := scope;
      this.scopeCode := scopeCode;
      this.scopeId := scopeId;
    }

    /** The source the client fetched for the channel, read off the client's state after the request. */
    function FetchedSource(websiteCode: Option<string>): Option<Value>
      reads client.curl
    {
      if client.GetApiKey(websiteCode) == "" then None
      else client.FetchedData(client.GetBaseUrl(websiteCode) + ActiveSourcePath(PhpStrings.Str(value)))
    }

    /** The source lookup of `afterSave` and the source's Magento verdict. */
    method Classify(channelId: string, websiteCode: Option<string>)
      returns (source: Option<Value>, isMagento: bool, sourceType: string, sourceTitle: string)
      modifies client.curl`headers, client.curl`timeout, client.curl`exchanges, client.curl`status, client.curl`body
      ensures client.GetApiKey(websiteCode) == "" ==> source == None && unchanged(client.curl)
      ensures client.GetApiKey(websiteCode) != "" ==>
        && client.Fetched(client.GetBaseUrl(websiteCode) + ActiveSourcePath(channelId), client.GetApiKey(websiteCode))
        && source == client.FetchedData(client.GetBaseUrl(websiteCode) + ActiveSourcePath(channelId))
      ensures isMagento == (source.Some? && source.value.Arr? && IsMagentoSource(source.value))
      ensures sourceType == (if source.Some? && source.value.Arr? then SourceType(source.value) else "")
      ensures sourceTitle == (if source.Some? && source.value.Arr? then SourceTitle(source.value) else "")
    {
      source := client.GetActiveChannelSource(channelId, websiteCode);
      isMagento, sourceType, sourceTitle := false, "", "";
      if source.Some? && source.value.Arr? {
        isMagento, sourceType, sourceTitle := InspectSource(source.value);
      }
    }

    /**
     * `afterSave`: an empty channel id does nothing. Otherwise the active
     * source is fetched for the website of the saved scope and the planned
     * writes are issued in order at the selected scope, stopping at the first
     * one the store refuses; nothing escapes.
     */
    method AfterSave()
      modifies writer`saved, client.curl`headers, client.curl`timeout, client.curl`exchanges, client.curl`status, client.curl`body
      ensures PhpStrings.Str(value) == "" ==> writer.saved == old(writer.saved) && unchanged(client.curl)
      ensures PhpStrings.Str(value) != "" ==>
        var websiteCode := WebsiteCodeOf(scope, scopeCode);
        && (client.GetApiKey(websiteCode) == "" ==> unchanged(client.curl))
        && (client.GetApiKey(websiteCode) != "" ==>
              client.Fetched(client.GetBaseUrl(websiteCode) + ActiveSourcePath(PhpStrings.Str(value)), client.GetApiKey(websiteCode)))
        && writer.saved == old(writer.saved)
             + Persisted(PlannedWrites(FetchedSource(websiteCode), TargetOf(websiteCode, scopeId)), writer.rejects)
    {
      var channelId := PhpStrings.Str(value);
      if channelId == "" {
        return;
      }
      var websiteCode := WebsiteCodeOf(scope, scopeCode);
      var target := TargetOf(websiteCode, scopeId);
      var source, isMagento, sourceType, sourceTitle := Classify(channelId, websiteCode);
      assert source == FetchedSource(websiteCode);
      SaveAll(target, isMagento, sourceType, sourceTitle);
    }

    /** The writes of `afterSave`, in order; a refused write ends the sequence (the catch). */
    method SaveAll(target: WriteTarget, isMagento: bool, sourceType: string, sourceTitle: string)
      modifies writer`saved
      ensures writer.saved == old(writer.saved) + Persisted(WritesFor(target, isMagento, sourceType, sourceTitle), writer.rejects)
    {
      var flag := ConfigWrite(SourceIsMagentoPath, if isMagento then "1" else "0", target.scope, target.scopeId);
      ghost var rest := OptionalWrite(SourceTypePath, sourceType, target) + OptionalWrite(SourceTitlePath, sourceTitle, target);
      PersistedCons(flag, rest, writer.rejects);
      var ok := writer.Save(flag);
      if ok {
        SaveDetails(target, sourceType, sourceTitle);
      }
    }

    /** The type, then the title, each only when non-empty; the title only if the type went through. */
    method SaveDetails(target: WriteTarget, sourceType: string, sourceTitle: string)
      modifies writer`saved
      ensures writer.saved == old(writer.saved)
        + Persisted(OptionalWrite(SourceTypePath, sourceType, target) + OptionalWrite(SourceTitlePath, sourceTitle, target), writer.rejects)
    {
      ghost var titles := OptionalWrite(SourceTitlePath, sourceTitle, target);
      if sourceType != "" {
        var typeWrite := ConfigWrite(SourceTypePath, sourceType, target.scope, target.scopeId);
        PersistedCons(typeWrite, titles, writer.rejects);
        var ok := writer.Save(typeWrite);
        if !ok {
          return;
        }
      }
      SaveTitle(target, sourceTitle);
    }

    method SaveTitle(target: WriteTarget, sourceTitle: string)
      modifies writer`saved
      ensures writer.saved == old(writer.saved) + Persisted(OptionalWrite(SourceTitlePath, sourceTitle, target), writer.rejects)
    {
      if sourceTitle != "" {
        var titleWrite := ConfigWrite(SourceTitlePath, sourceTitle, target.scope, target.scopeId);
        PersistedCons(titleWrite, [], writer.rejects);
        assert [titleWrite] + [] == [titleWrite];
        var ok := writer.Save(titleWrite);
      }
    }
  }
}
