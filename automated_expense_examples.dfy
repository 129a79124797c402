/** The reply shapes documented at the top of `AutomatedExpenseHandler`. */
module AutomatedExpenseExamples {
  import opened Wrappers
  import opened JsString
  import opened Dates
  import opened MessageHandlerInterface
  import opened AutomatedExpenseHandler

  /** `Category` alone: no subcategory (line 1 is undefined) and nothing to override. */
  lemma CategoryOnly(parts: seq<string>, notification: Notification, parseDate: string -> DateValue)
    requires |parts| == 1 && parts[0] == "Category"
    requires IsValidDate(notification.timestamp)
    ensures ProcessParts(parts, notification, parseDate).Ok?
    ensures var e := ProcessParts(parts, notification, parseDate).value;
      e.category == "Category" && e.subcategory == None && e.name == notification.vendor
  {
    NoOverridesUsesNotification(parts, notification, parseDate);
  }

  /** `Category` and `Subcategory`: both taken, nothing to override. */
  lemma CategoryAndSubcategory(parts: seq<string>, notification: Notification, parseDate: string -> DateValue)
    requires |parts| == 2 && parts[0] == "Category" && parts[1] == "Subcategory"
    requires IsValidDate(notification.timestamp)
    ensures ProcessParts(parts, notification, parseDate).Ok?
    ensures var e := ProcessParts(parts, notification, parseDate).value;
      e.category == "Category" && e.subcategory == Some("Subcategory") && e.currency == DefaultCurrency
  {
    NoOverridesUsesNotification(parts, notification, parseDate);
  }

  /** A colon-free key, a colon and a colon-free value: the key and the trimmed value. */
  lemma KeyValueLine(key: string, value: string)
    requires ':' !in key && ':' !in value
    ensures ParseOverrideLine(key + [':'] + value) == Some((key, Trim(value)))
  {
    assert Join([key, value], ':') == key + [':'] + value;
    SplitJoin([key, value], ':');
  }

  /** The value of the documented override line, trimmed. */
  lemma TrimmedValue(value: string)
    requires value == " somefield"
    ensures Trim(value) == "somefield"
  {
    assert TrimStart(value) == value[1..];
  }

  /** One `Key: value` line sets that key to the trimmed value. */
  lemma OverrideLine(line: string)
    requires line == "Modified field: somefield"
    ensures ParseOverrideLine(line) == Some(("Modified field", "somefield"))
  {
    var key, value := "Modified field", " somefield";
    assert line == key + [':'] + value;
    KeyValueLine(key, value);
    TrimmedValue(value);
  }

  /** The third documented reply: category, subcategory, an empty line, one override. */
  lemma CategorySubcategoryOverride(parts: seq<string>)
    requires |parts| == 4 && parts[0] == "Category" && parts[1] == "Subcategory" && parts[2] == ""
    requires parts[3] == "Modified field: somefield"
    ensures FirstOverrideIdx(parts) == 3
    ensures Overrides(OverrideRegion(parts, 3)) == Ok(map["Modified field" := "somefield"])
  {
    OverrideLine(parts[3]);
    assert OverrideRegion(parts, 3) == [parts[3]];
    assert OverrideRegion(parts, 3)[..0] == [];
  }
}
