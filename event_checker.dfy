/** Validation of event names, event and user attributes, and items
    (src/provider/EventChecker.ts). Each check is a cascade: the first rule
    that fires decides the error code, and 0 means none fired. */
module EventChecker {
  import opened Types
  import opened Text
  import Event

  // ---------------------------------------------------------------------
  // Names and values

  predicate IsNameChar(c: char) {
    IsDigit(c) || ('a' <= c <= 'z') || ('A' <= c <= 'Z') || c == '_'
  }

  /** `/^(?![0-9])[0-9a-zA-Z_]+$/`: non-empty, letters, digits and
      underscores only, and not starting with a digit. */
  predicate IsValidName(name: string) {
    |name| > 0 && !IsDigit(name[0]) && forall i :: 0 <= i < |name| ==> IsNameChar(name[i])
  }

  /** The name pattern run left to right, as a regular expression engine
      runs it: at the start the lookahead rejects a digit, then every
      character must be in the class, and at least one must be consumed. */
  predicate MatchesFrom(s: string, started: bool)
    decreases |s|
  {
    if s == [] then started
    else if !started && IsDigit(s[0]) then false
    else IsNameChar(s[0]) && MatchesFrom(s[1..], true)
  }

  lemma {:induction false} MatchesAfterStart(s: string)
    ensures MatchesFrom(s, true) <==> forall i :: 0 <= i < |s| ==> IsNameChar(s[i])
  {
    if s != [] {
      MatchesAfterStart(s[1..]);
      assert forall i :: 1 <= i < |s| ==> s[i] == s[1..][i - 1];
    }
  }

  /** `IsValidName` accepts exactly the names the pattern matches. */
  lemma NamePatternAgrees(name: string)
    ensures IsValidName(name) <==> MatchesFrom(name, false)
  {
    if name != [] {
      MatchesAfterStart(name[1..]);
      assert forall i :: 1 <= i < |name| ==> name[i] == name[1..][i - 1];
    }
  }

  /** `String(value)` (numbers are integers in this model). */
  function ValueString(v: Value): string {
    match v
    case Str(s) => s
    case Num(n) => IntToString(n)
    case Bool(b) => if b then "true" else "false"
    case Null => "null"
  }

  /** JavaScript truthiness of a value. */
  predicate Truthy(v: Value) {
    match v
    case Str(s) => s != ""
    case Num(n) => n != 0
    case Bool(b) => b
    case Null => false
  }

  /** `getLimitString`: at most the first 256 characters. */
  function GetLimitString(s: string): (r: string)
    ensures |r| <= Event.MAX_LENGTH_OF_ERROR_VALUE && r <= s
    ensures |s| <= Event.MAX_LENGTH_OF_ERROR_VALUE ==> r == s
  {
    Prefix(s, Event.MAX_LENGTH_OF_ERROR_VALUE)
  }

  // ---------------------------------------------------------------------
  // The cascade, as a reference

  /** The code of the first rule that fires, 0 when none does. */
  function FirstFailing(rules: seq<(bool, int)>): int {
    if rules == [] then Event.NO_ERROR
    else if rules[0].0 then rules[0].1
    else FirstFailing(rules[1..])
  }

  /** With non-zero codes, the result is 0 exactly when no rule fires, and
      otherwise the code of a rule that fires with none firing before it. */
  lemma {:induction false} FirstFailingRule(rules: seq<(bool, int)>)
    requires forall i :: 0 <= i < |rules| ==> rules[i].1 != 0
    ensures FirstFailing(rules) == 0 <==> forall i :: 0 <= i < |rules| ==> !rules[i].0
    ensures FirstFailing(rules) != 0 ==>
      exists i :: 0 <= i < |rules| && rules[i].0 && rules[i].1 == FirstFailing(rules)
        && forall j :: 0 <= j < i ==> !rules[j].0
  {
    if rules != [] {
      FirstFailingRule(rules[1..]);
      if !rules[0].0 {
        if FirstFailing(rules) != 0 {
          var i :| 0 <= i < |rules[1..]| && rules[1..][i].0 && rules[1..][i].1 == FirstFailing(rules)
            && forall j :: 0 <= j < i ==> !rules[1..][j].0;
          assert rules[i + 1] == rules[1..][i];
          forall j | 0 <= j < i + 1
            ensures !rules[j].0
          {
            if j > 0 {
              assert rules[j] == rules[1..][j - 1];
            }
          }
        } else {
          forall i | 0 <= i < |rules|
            ensures !rules[i].0
          {
            if i > 0 {
              assert rules[i] == rules[1..][i - 1];
            }
          }
        }
      }
    }
  }

  lemma FirstFailingCons(rule: (bool, int), rest: seq<(bool, int)>)
    ensures FirstFailing([rule] + rest) == if rule.0 then rule.1 else FirstFailing(rest)
  {
    assert ([rule] + rest)[1..] == rest;
  }

  /** A four-rule cascade, unfolded. */
  lemma FirstFailing4(rules: seq<(bool, int)>)
    requires |rules| == 4
    ensures FirstFailing(rules) ==
      if rules[0].0 then rules[0].1 else if rules[1].0 then rules[1].1
      else if rules[2].0 then rules[2].1 else if rules[3].0 then rules[3].1 else 0
  {
    assert rules == [rules[0]] + ([rules[1]] + ([rules[2]] + ([rules[3]] + [])));
    FirstFailingCons(rules[0], [rules[1]] + ([rules[2]] + ([rules[3]] + [])));
    FirstFailingCons(rules[1], [rules[2]] + ([rules[3]] + []));
    FirstFailingCons(rules[2], [rules[3]] + []);
    FirstFailingCons(rules[3], []);
  }

  function EventNameRules(name: string): seq<(bool, int)> {
    [(!IsValidName(name), Event.EVENT_NAME_INVALID),
     (|name| > Event.MAX_EVENT_TYPE_LENGTH, Event.EVENT_NAME_LENGTH_EXCEED)]
  }

  function AttributeRules(currentNumber: int, key: string, value: Value): seq<(bool, int)> {
    [(currentNumber >= Event.MAX_NUM_OF_ATTRIBUTES, Event.ATTRIBUTE_SIZE_EXCEED),
     (|key| > Event.MAX_LENGTH_OF_NAME, Event.ATTRIBUTE_NAME_LENGTH_EXCEED),
     (!IsValidName(key), Event.ATTRIBUTE_NAME_INVALID),
     (|ValueString(value)| > Event.MAX_LENGTH_OF_VALUE, Event.ATTRIBUTE_VALUE_LENGTH_EXCEED)]
  }

  function UserAttributeRules(currentNumber: int, key: string, value: Value): seq<(bool, int)> {
    [(currentNumber >= Event.MAX_NUM_OF_USER_ATTRIBUTES, Event.USER_ATTRIBUTE_SIZE_EXCEED),
     (|key| > Event.MAX_LENGTH_OF_NAME, Event.USER_ATTRIBUTE_NAME_LENGTH_EXCEED),
     (!IsValidName(key), Event.USER_ATTRIBUTE_NAME_INVALID),
     (|ValueString(value)| > Event.MAX_LENGTH_OF_USER_VALUE, Event.USER_ATTRIBUTE_VALUE_LENGTH_EXCEED)]
  }

  // ---------------------------------------------------------------------
  // The checks

  /** `checkEventName`: validity before length. */
  function CheckEventName(name: string): (r: EventError)
    ensures r.code == Event.NO_ERROR <==> r.message.None?
  {
    if !IsValidName(name) then
      EventError(Event.EVENT_NAME_INVALID,
        Some("Event name can only contains uppercase and lowercase letters, "
             + "underscores, number, and is not start with a number. event name: " + name))
    else if |name| > Event.MAX_EVENT_TYPE_LENGTH then
      EventError(Event.EVENT_NAME_LENGTH_EXCEED,
        Some("Event name is too long, the max event type length is "
             + NatToString(Event.MAX_EVENT_TYPE_LENGTH) + " characters. event name: " + name))
    else
      EventError(Event.NO_ERROR, None)
  }

  /** `checkAttributes`: count, name length, name, value length, in that
      order; every message is cut to 256 characters. */
  function CheckAttributes(currentNumber: int, key: string, value: Value): (r: EventError)
    ensures r.code == Event.NO_ERROR <==> r.message.None?
    ensures r.message.Some? ==> |r.message.value| <= Event.MAX_LENGTH_OF_ERROR_VALUE
  {
    if currentNumber >= Event.MAX_NUM_OF_ATTRIBUTES then
      EventError(Event.ATTRIBUTE_SIZE_EXCEED, Some(GetLimitString("attribute name: " + key)))
    else if |key| > Event.MAX_LENGTH_OF_NAME then
      EventError(Event.ATTRIBUTE_NAME_LENGTH_EXCEED,
        Some(GetLimitString("attribute name length is: (" + NatToString(|key|) + ") name is: " + key)))
    else if !IsValidName(key) then
      EventError(Event.ATTRIBUTE_NAME_INVALID, Some(GetLimitString(key)))
    else if |ValueString(value)| > Event.MAX_LENGTH_OF_VALUE then
      EventError(Event.ATTRIBUTE_VALUE_LENGTH_EXCEED,
        Some(GetLimitString("attribute name: " + key + ", attribute value: " + ValueString(value))))
    else
      EventError(Event.NO_ERROR, None)
  }

  /** `checkUserAttribute`: the same cascade with the user limits. */
  function CheckUserAttribute(currentNumber: int, key: string, value: Value): (r: EventError)
    ensures r.code == Event.NO_ERROR <==> r.message.None?
    ensures r.message.Some? ==> |r.message.value| <= Event.MAX_LENGTH_OF_ERROR_VALUE
  {
    if currentNumber >= Event.MAX_NUM_OF_USER_ATTRIBUTES then
      EventError(Event.USER_ATTRIBUTE_SIZE_EXCEED, Some(GetLimitString("attribute name:" + key)))
    else if |key| > Event.MAX_LENGTH_OF_NAME then
      EventError(Event.USER_ATTRIBUTE_NAME_LENGTH_EXCEED,
        Some(GetLimitString("user attribute name length is: (" + NatToString(|key|) + ") name is: " + key)))
    else if !IsValidName(key) then
      EventError(Event.USER_ATTRIBUTE_NAME_INVALID, Some(GetLimitString(key)))
    else if |ValueString(value)| > Event.MAX_LENGTH_OF_USER_VALUE then
      EventError(Event.USER_ATTRIBUTE_VALUE_LENGTH_EXCEED,
        Some(GetLimitString("attribute name: " + key + ", attribute value: " + ValueString(value))))
    else
      EventError(Event.NO_ERROR, None)
  }

  /** An event name is accepted exactly when it is a valid name of at most
      50 characters; an invalid name is reported as invalid whatever its
      length. */
  lemma EventNameVerdict(name: string)
    ensures CheckEventName(name).code == FirstFailing(EventNameRules(name))
    ensures CheckEventName(name).code == 0 <==> IsValidName(name) && |name| <= Event.MAX_EVENT_TYPE_LENGTH
    ensures !IsValidName(name) ==> CheckEventName(name).code == Event.EVENT_NAME_INVALID
  {
    var rules := EventNameRules(name);
    assert rules == [rules[0]] + ([rules[1]] + []);
    FirstFailingCons(rules[0], [rules[1]] + []);
    FirstFailingCons(rules[1], []);
  }

  /** An attribute passes exactly when all four rules hold, and a value too
      long is reported only for a valid, short name under the count cap. */
  lemma AttributeVerdict(currentNumber: int, key: string, value: Value)
    ensures CheckAttributes(currentNumber, key, value).code == FirstFailing(AttributeRules(currentNumber, key, value))
    ensures CheckAttributes(currentNumber, key, value).code == 0 <==>
      && currentNumber < Event.MAX_NUM_OF_ATTRIBUTES
      && |key| <= Event.MAX_LENGTH_OF_NAME && IsValidName(key)
      && |ValueString(value)| <= Event.MAX_LENGTH_OF_VALUE
    ensures CheckAttributes(currentNumber, key, value).code == Event.ATTRIBUTE_VALUE_LENGTH_EXCEED ==>
      currentNumber < Event.MAX_NUM_OF_ATTRIBUTES && |key| <= Event.MAX_LENGTH_OF_NAME && IsValidName(key)
  {
    var rules := AttributeRules(currentNumber, key, value);
    FirstFailing4(rules);
    if CheckAttributes(currentNumber, key, value).code == 0 {
      assert !rules[0].0 && !rules[1].0 && !rules[2].0 && !rules[3].0;
    }
  }

  /** The same for user attributes with limits 100 and 256. */
  lemma UserAttributeVerdict(currentNumber: int, key: string, value: Value)
    ensures CheckUserAttribute(currentNumber, key, value).code == FirstFailing(UserAttributeRules(currentNumber, key, value))
    ensures CheckUserAttribute(currentNumber, key, value).code == 0 <==>
      && currentNumber < Event.MAX_NUM_OF_USER_ATTRIBUTES
      && |key| <= Event.MAX_LENGTH_OF_NAME && IsValidName(key)
      && |ValueString(value)| <= Event.MAX_LENGTH_OF_USER_VALUE
    ensures CheckUserAttribute(currentNumber, key, value).code == Event.USER_ATTRIBUTE_VALUE_LENGTH_EXCEED ==>
      currentNumber < Event.MAX_NUM_OF_USER_ATTRIBUTES && |key| <= Event.MAX_LENGTH_OF_NAME && IsValidName(key)
  {
    var rules := UserAttributeRules(currentNumber, key, value);
    FirstFailing4(rules);
    if CheckUserAttribute(currentNumber, key, value).code == 0 {
      assert !rules[0].0 && !rules[1].0 && !rules[2].0 && !rules[3].0;
    }
  }

  /** The names the source's tests accept and reject. */
  lemma ValidNameExamples()
    ensures IsValidName("testName") && IsValidName("_app_start") && IsValidName("a_ab_1A")
    ensures !IsValidName("") && !IsValidName("*&") && !IsValidName("0abc") && !IsValidName("123")
  {
    assert !IsNameChar('*');
    assert IsDigit("0abc"[0]) && IsDigit("123"[0]);
  }

  // ---------------------------------------------------------------------
  // Items

  /** An item value that is truthy and longer than 256 characters as a
      string is dropped. */
  predicate TooLong(v: Value) {
    Truthy(v) && |ValueString(v)| > Event.MAX_LENGTH_OF_ITEM_VALUE
  }

  /** The entries that survive `checkItems`, in order. */
  function KeepShort(entries: seq<(string, Value)>): seq<(string, Value)> {
    if entries == [] then []
    else (if TooLong(entries[0].1) then [] else [entries[0]]) + KeepShort(entries[1..])
  }

  /** The last entry too long, the one the error message names. */
  function LastTooLong(entries: seq<(string, Value)>): Option<(string, Value)> {
    if entries == [] then None
    else if TooLong(entries[|entries| - 1].1) then Some(entries[|entries| - 1])
    else LastTooLong(entries[..|entries| - 1])
  }

  /** `delete item[key]` on an ordered entry list. */
  function RemoveKey(entries: seq<(string, Value)>, key: string): seq<(string, Value)> {
    if entries == [] then []
    else (if entries[0].0 == key then [] else [entries[0]]) + RemoveKey(entries[1..], key)
  }

  lemma {:induction false} KeepShortAppend(a: seq<(string, Value)>, b: seq<(string, Value)>)
    ensures KeepShort(a + b) == KeepShort(a) + KeepShort(b)
  {
    if a != [] {
      assert (a + b)[1..] == a[1..] + b;
      KeepShortAppend(a[1..], b);
    } else {
      assert a + b == b;
    }
  }

  lemma {:induction false} RemoveKeyAppend(a: seq<(string, Value)>, b: seq<(string, Value)>, key: string)
    ensures RemoveKey(a + b, key) == RemoveKey(a, key) + RemoveKey(b, key)
  {
    if a != [] {
      assert (a + b)[1..] == a[1..] + b;
      RemoveKeyAppend(a[1..], b, key);
    } else {
      assert a + b == b;
    }
  }

  lemma {:induction false} RemoveKeyAbsent(entries: seq<(string, Value)>, key: string)
    requires forall e <- entries :: e.0 != key
    ensures RemoveKey(entries, key) == entries
  {
    if entries != [] {
      assert forall e <- entries[1..] :: e in entries;
      RemoveKeyAbsent(entries[1..], key);
    }
  }

  /** Exactly the short entries survive, in their order: an entry is kept
      if and only if it is not too long. */
  lemma {:induction false} KeepShortExact(entries: seq<(string, Value)>)
    ensures forall e <- KeepShort(entries) :: e in entries && !TooLong(e.1)
    ensures forall e <- entries :: !TooLong(e.1) ==> e in KeepShort(entries)
    ensures KeepShort(entries) == entries <==> forall e <- entries :: !TooLong(e.1)
  {
    if entries != [] {
      KeepShortExact(entries[1..]);
      assert entries == [entries[0]] + entries[1..];
      forall e <- entries | !TooLong(e.1) ensures e in KeepShort(entries) {
        if e != entries[0] {
          assert e in entries[1..];
        }
      }
      KeepShortLength(entries[1..]);
    }
  }

  lemma {:induction false} KeepShortLength(entries: seq<(string, Value)>)
    ensures |KeepShort(entries)| <= |entries|
  {
    if entries != [] {
      KeepShortLength(entries[1..]);
    }
  }

  /** `LastTooLong` is the last entry that is too long, and there is none
      exactly when every entry is short. */
  lemma {:induction false} LastTooLongRule(entries: seq<(string, Value)>)
    ensures LastTooLong(entries).None? <==> forall e <- entries :: !TooLong(e.1)
    ensures LastTooLong(entries).Some? ==>
      exists i :: 0 <= i < |entries| && entries[i] == LastTooLong(entries).value && TooLong(entries[i].1)
        && forall j :: i < j < |entries| ==> !TooLong(entries[j].1)
  {
    if entries != [] {
      var init := entries[..|entries| - 1];
      LastTooLongRule(init);
      assert entries == init + [entries[|entries| - 1]];
      if !TooLong(entries[|entries| - 1].1) {
        if LastTooLong(entries).Some? {
          var i :| 0 <= i < |init| && init[i] == LastTooLong(init).value && TooLong(init[i].1)
            && forall j :: i < j < |init| ==> !TooLong(init[j].1);
          assert entries[i] == init[i];
        }
        forall e <- entries | LastTooLong(entries).None? ensures !TooLong(e.1) {
          if e != entries[|entries| - 1] {
            assert e in init;
          }
        }
      }
    }
  }

  /** An item object; the keys of an object are distinct. */
  class ItemObject {
    var entries: seq<(string, Value)>

    ghost predicate Valid()
      reads this
    {
      DistinctKeys(entries)
    }

    constructor (entries: seq<(string, Value)>)
      requires DistinctKeys(entries)
      ensures this.entries == entries && Valid()
    {
      this.entries := entries;
    }

    /** `item[key]` as a string for a message: `undefined` when absent. */
    function FieldString(key: string): string
      reads this
    {
      FieldOf(entries, key)
    }

    method Delete(key: string)
      modifies this
      ensures entries == RemoveKey(old(entries), key)
    {
      entries := RemoveKey(entries, key);
    }
  }

  function FieldOf(entries: seq<(string, Value)>, key: string): string {
    if entries == [] then "undefined"
    else if entries[0].0 == key then ValueString(entries[0].1)
    else FieldOf(entries[1..], key)
  }

  lemma KeepShortSnoc(s: seq<(string, Value)>, i: nat)
    requires i < |s|
    ensures KeepShort(s[..i + 1]) == KeepShort(s[..i]) + (if TooLong(s[i].1) then [] else [s[i]])
  {
    assert s[..i + 1] == s[..i] + [s[i]];
    KeepShortAppend(s[..i], [s[i]]);
    assert [s[i]][1..] == [];
  }

  /** With distinct keys, the key at `i` occurs neither before nor after. */
  lemma KeyUnique(s: seq<(string, Value)>, i: nat)
    requires DistinctKeys(s) && i < |s|
    ensures forall e <- s[..i] :: e.0 != s[i].0
    ensures forall e <- s[i + 1..] :: e.0 != s[i].0
  {
    forall e <- s[..i] ensures e.0 != s[i].0 {
      var j :| 0 <= j < i && s[..i][j] == e;
      assert s[j] == e;
    }
    forall e <- s[i + 1..] ensures e.0 != s[i].0 {
      var j :| 0 <= j < |s[i + 1..]| && s[i + 1..][j] == e;
      assert s[i + 1 + j] == e;
    }
  }

  /** Deleting a key that occurs once removes exactly that entry. */
  lemma RemoveBetween(done: seq<(string, Value)>, x: (string, Value), rest: seq<(string, Value)>)
    requires forall e <- done :: e.0 != x.0
    requires forall e <- rest :: e.0 != x.0
    ensures RemoveKey(done + ([x] + rest), x.0) == done + rest
  {
    calc {
      RemoveKey(done + ([x] + rest), x.0);
      { RemoveKeyAppend(done, [x] + rest, x.0); }
      RemoveKey(done, x.0) + RemoveKey([x] + rest, x.0);
      { RemoveKeyAbsent(done, x.0); RemoveKeyAppend([x], rest, x.0); }
      done + (RemoveKey([x], x.0) + RemoveKey(rest, x.0));
      { assert [x][1..] == []; RemoveKeyAbsent(rest, x.0); }
      done + rest;
    }
  }

  /** The steps of the deletion loop: after the next entry, the list is
      the kept part of what was processed followed by the rest. A short
      entry stays in place; */
  lemma KeepStep(s: seq<(string, Value)>, i: nat)
    requires i < |s| && !TooLong(s[i].1)
    ensures KeepShort(s[..i]) + s[i..] == KeepShort(s[..i + 1]) + s[i + 1..]
  {
    KeepShortSnoc(s, i);
    assert s[i..] == [s[i]] + s[i + 1..];
  }

  /** a too-long one is the only entry its key deletes. */
  lemma DeleteStep(s: seq<(string, Value)>, i: nat)
    requires DistinctKeys(s) && i < |s| && TooLong(s[i].1)
    ensures RemoveKey(KeepShort(s[..i]) + s[i..], s[i].0) == KeepShort(s[..i + 1]) + s[i + 1..]
  {
    var x, rest := s[i], s[i + 1..];
    var done := KeepShort(s[..i]);
    assert KeepShort(s[..i + 1]) == done by {
      KeepShortSnoc(s, i);
    }
    assert s[i..] == [x] + rest;
    assert forall e <- done :: e.0 != x.0 by {
      KeyUnique(s, i);
      KeepShortExact(s[..i]);
    }
    assert forall e <- rest :: e.0 != x.0 by {
      KeyUnique(s, i);
    }
    RemoveBetween(done, x, rest);
  }

  /** The loop of `checkItems`: deletes every too-long entry and reports
      the last one deleted. */
  method DeleteTooLong(item: ItemObject) returns (hasInvalidValue: bool, invalidKey: string, invalidValue: string)
    requires item.Valid()
    modifies item
    ensures item.entries == KeepShort(old(item.entries))
    ensures hasInvalidValue <==> LastTooLong(old(item.entries)).Some?
    ensures hasInvalidValue ==>
      (invalidKey, invalidValue) == (LastTooLong(old(item.entries)).value.0, ValueString(LastTooLong(old(item.entries)).value.1))
  {
    hasInvalidValue := false;
    invalidKey := "";
    invalidValue := "";
    var snapshot := item.entries;
    var i := 0;
    while i < |snapshot|
      invariant 0 <= i <= |snapshot|
      invariant item.entries == KeepShort(snapshot[..i]) + snapshot[i..]
      invariant hasInvalidValue <==> LastTooLong(snapshot[..i]).Some?
      invariant hasInvalidValue ==>
        (invalidKey, invalidValue) == (LastTooLong(snapshot[..i]).value.0, ValueString(LastTooLong(snapshot[..i]).value.1))
    {
      var (key, value) := snapshot[i];
      assert snapshot[..i + 1][..i] == snapshot[..i];
      if Truthy(value) && |ValueString(value)| > Event.MAX_LENGTH_OF_ITEM_VALUE {
        invalidKey := key;
        invalidValue := ValueString(value);
        hasInvalidValue := true;
        item.Delete(key);
        DeleteStep(snapshot, i);
      } else {
        KeepStep(snapshot, i);
      }
      i := i + 1;
    }
    assert snapshot[..i] == snapshot;
  }

  /** `checkItems`: over the cap the item is left alone and 4001 returned;
      otherwise every too-long entry is deleted, and 4002 names the last one
      deleted. */
  method CheckItems(currentNumber: int, item: ItemObject) returns (r: EventError)
    requires item.Valid()
    modifies item
    ensures r.message.Some? ==> |r.message.value| <= Event.MAX_LENGTH_OF_ERROR_VALUE
    ensures currentNumber >= Event.MAX_NUM_OF_ITEMS ==>
      && r.code == Event.ITEM_SIZE_EXCEED
      && r.message == Some(GetLimitString("item: " + (FieldOf(old(item.entries), "id") + "_"
                                                      + FieldOf(old(item.entries), "name"))))
      && item.entries == old(item.entries)
    ensures currentNumber < Event.MAX_NUM_OF_ITEMS ==>
      && item.entries == KeepShort(old(item.entries))
      && (r.code == Event.ITEM_VALUE_LENGTH_EXCEED <==> LastTooLong(old(item.entries)).Some?)
      && (r.code == Event.NO_ERROR <==> LastTooLong(old(item.entries)).None?)
      && (LastTooLong(old(item.entries)).Some? ==>
            var (key, value) := LastTooLong(old(item.entries)).value;
            r.message == Some(GetLimitString("item attribute name: " + key
                                             + ", item attribute value: " + ValueString(value))))
  {
    if currentNumber >= Event.MAX_NUM_OF_ITEMS {
      var itemKey := item.FieldString("id") + "_" + item.FieldString("name");
      return EventError(Event.ITEM_SIZE_EXCEED, Some(GetLimitString("item: " + itemKey)));
    }
    var hasInvalidValue, invalidKey, invalidValue := DeleteTooLong(item);
    if hasInvalidValue {
      var errorString := "item attribute name: " + invalidKey + ", item attribute value: " + invalidValue;
      return EventError(Event.ITEM_VALUE_LENGTH_EXCEED, Some(GetLimitString(errorString)));
    }
    return EventError(Event.NO_ERROR, None);
  }
}
