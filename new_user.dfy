/**
 * The new-user form (app/settings/users/new/page.tsx): free-form profile
 * fields, a list of selected permissions edited one at a time or a whole
 * category at a time, the per-category check-box states, and the avatar's
 * initials.
 */
module NewUser {

  import Text
  import Lists

  /** The permission categories, in the order the form lists them. */
  datatype Category = Dashboard | Products | Sales | Inventory | Reports | Devices | Settings

  /** `permissionCategories[c].permissions` */
  function Permissions(c: Category): (r: seq<string>)
    ensures |r| > 0
  {
    match c
    case Dashboard => ["view_dashboard", "view_analytics", "export_reports"]
    case Products => ["view_products", "create_products", "edit_products", "delete_products", "manage_categories"]
    case Sales => ["view_orders", "create_orders", "edit_orders", "cancel_orders",
                   "view_customers", "manage_customers", "view_invoices", "create_invoices"]
    case Inventory => ["view_inventory", "manage_stock", "view_categories", "manage_categories", "inventory_reports"]
    case Reports => ["view_financial_reports", "view_sales_reports", "view_inventory_reports",
                     "export_reports", "schedule_reports"]
    case Devices => ["view_devices", "manage_devices", "device_connections", "device_settings"]
    case Settings => ["view_settings", "manage_users", "manage_roles", "system_settings", "billing_settings"]
  }

  /** No category lists a permission twice. */
  lemma PermissionsDistinct(c: Category)
    ensures Lists.Distinct(Permissions(c))
  {
  }

  /** Two categories overlap: `manage_categories` and `export_reports` each appear in two of them. */
  lemma SharedPermissions()
    ensures "manage_categories" in Permissions(Products) && "manage_categories" in Permissions(Inventory)
    ensures "export_reports" in Permissions(Dashboard) && "export_reports" in Permissions(Reports)
  {
    assert Permissions(Products)[4] == "manage_categories";
    assert Permissions(Inventory)[3] == "manage_categories";
    assert Permissions(Dashboard)[2] == "export_reports";
    assert Permissions(Reports)[3] == "export_reports";
  }

  lemma {:induction false} DistinctCountsOnce(s: seq<string>, x: string)
    requires Lists.Distinct(s) && x in s
    ensures multiset(s)[x] == 1
  {
    if s[0] == x {
      assert x !in s[1..];
      assert s == [s[0]] + s[1..];
    } else {
      assert Lists.Distinct(s[1..]) by {
        forall i, j | 0 <= i < j < |s[1..]| ensures s[1..][i] != s[1..][j] {
          assert s[1..][i] == s[i + 1] && s[1..][j] == s[j + 1];
        }
      }
      DistinctCountsOnce(s[1..], x);
      assert s == [s[0]] + s[1..];
    }
  }

  /** The permissions that are not part of category `c`. */
  function OutsideOf(c: Category): string -> bool
  {
    p => p !in Permissions(c)
  }

  function SelectedIn(selected: seq<string>): string -> bool
  {
    p => p in selected
  }

  /** How many of the category's permissions are selected. */
  function SelectedCount(selected: seq<string>, c: Category): (n: nat)
    ensures n <= |Permissions(c)|
  {
    Lists.Count(Permissions(c), SelectedIn(selected))
  }

  /** `isCategorySelected`: every permission of the category is selected. */
  predicate IsCategorySelected(selected: seq<string>, c: Category)
  {
    forall p :: p in Permissions(c) ==> p in selected
  }

  /** `isCategoryPartiallySelected`: some but not all of the category's permissions are selected. */
  predicate IsCategoryPartiallySelected(selected: seq<string>, c: Category)
  {
    0 < SelectedCount(selected, c) < |Permissions(c)|
  }

  /** A category's check box is in exactly one state: checked, indeterminate, or empty with no permission selected. */
  lemma CategoryStates(selected: seq<string>, c: Category)
    ensures IsCategorySelected(selected, c) <==> SelectedCount(selected, c) == |Permissions(c)|
    ensures !(IsCategorySelected(selected, c) && IsCategoryPartiallySelected(selected, c))
    ensures !IsCategorySelected(selected, c) && !IsCategoryPartiallySelected(selected, c) <==> SelectedCount(selected, c) == 0
  {
    Lists.CountAll(Permissions(c), SelectedIn(selected));
  }

  lemma FilterNone(s: seq<string>, p: string -> bool)
    requires forall x :: x in s ==> !p(x)
    ensures Lists.Filter(s, p) == []
  {
  }

  /**
   * `handleCategoryToggle`: checking drops the category's permissions from the
   * selection and appends all of them; unchecking only drops them.
   */
  function CategoryToggle(selected: seq<string>, c: Category, checked: bool): (r: seq<string>)
    ensures checked ==> forall p :: p in Permissions(c) ==> multiset(r)[p] == 1
    ensures !checked ==> forall p :: p in Permissions(c) ==> p !in r
    ensures Lists.Filter(r, OutsideOf(c)) == Lists.Filter(selected, OutsideOf(c))
    ensures forall p :: p in r ==> p in selected || p in Permissions(c)
    ensures checked ==> IsCategorySelected(r, c)
    ensures !checked ==> SelectedCount(r, c) == 0
  {
    var kept := Lists.Filter(selected, OutsideOf(c));
    var r := if checked then kept + Permissions(c) else kept;
    CategoryToggleFacts(selected, c, checked, kept, r);
    r
  }

  lemma CategoryToggleFacts(selected: seq<string>, c: Category, checked: bool, kept: seq<string>, r: seq<string>)
    requires kept == Lists.Filter(selected, OutsideOf(c))
    requires r == if checked then kept + Permissions(c) else kept
    ensures checked ==> forall p :: p in Permissions(c) ==> multiset(r)[p] == 1
    ensures !checked ==> forall p :: p in Permissions(c) ==> p !in r
    ensures Lists.Filter(r, OutsideOf(c)) == kept
    ensures !checked ==> SelectedCount(r, c) == 0
  {
    Lists.FilterIdempotent(selected, OutsideOf(c));
    if checked {
      PermissionsDistinct(c);
      forall p | p in Permissions(c) ensures multiset(r)[p] == 1 {
        Lists.FilterCount(selected, OutsideOf(c), p);
        DistinctCountsOnce(Permissions(c), p);
      }
      Lists.FilterAppend(kept, Permissions(c), OutsideOf(c));
      FilterNone(Permissions(c), OutsideOf(c));
    } else {
      FilterNone(Permissions(c), SelectedIn(r));
    }
  }

  /** Checking a category never unchecks another: every permission selected before stays selected. */
  lemma CheckingKeepsSelections(selected: seq<string>, c: Category, d: Category)
    requires IsCategorySelected(selected, d)
    ensures IsCategorySelected(CategoryToggle(selected, c, true), d)
  {
    var r := CategoryToggle(selected, c, true);
    forall p | p in Permissions(d) ensures p in r {
      if p !in Permissions(c) {
        assert p in Lists.Filter(selected, OutsideOf(c));
        assert p in Lists.Filter(r, OutsideOf(c));
      }
    }
  }

  /**
   * Categories share permissions, so unchecking one can leave another that was
   * fully selected only partly selected.
   */
  lemma UncheckingSharedPermission(selected: seq<string>, c: Category, d: Category, p: string)
    requires IsCategorySelected(selected, d)
    requires p in Permissions(c) && p in Permissions(d)
    ensures !IsCategorySelected(CategoryToggle(selected, c, false), d)
  {
  }

  /** Unchecking Products takes `manage_categories` away from a fully selected Inventory. */
  lemma UncheckProductsBreaksInventory(selected: seq<string>)
    requires IsCategorySelected(selected, Inventory)
    ensures IsCategoryPartiallySelected(CategoryToggle(selected, Products, false), Inventory)
  {
    var r := CategoryToggle(selected, Products, false);
    SharedPermissions();
    UncheckingSharedPermission(selected, Products, Inventory, "manage_categories");
    assert "view_inventory" in Permissions(Inventory) && "view_inventory" !in Permissions(Products);
    assert "view_inventory" in Lists.Filter(selected, OutsideOf(Products));
    assert "view_inventory" in Lists.Filter(r, OutsideOf(Products));
    assert "view_inventory" in Lists.Filter(Permissions(Inventory), SelectedIn(r));
    CategoryStates(r, Inventory);
  }

  /** A profile field's value: text, or one of the two switches. */
  datatype FieldValue = Text(text: string) | Flag(flag: bool)

  /** The form as it opens. */
  const InitialForm: map<string, FieldValue> := map[
    "firstName" := Text(""), "lastName" := Text(""), "email" := Text(""), "phone" := Text(""),
    "department" := Text(""), "role" := Text(""), "status" := Text("active"),
    "sendWelcomeEmail" := Flag(true), "requirePasswordChange" := Flag(true), "notes" := Text("")
  ]

  /** `handleInputChange`: the named field gets the value and every other field keeps its own. */
  function SetField(form: map<string, FieldValue>, field: string, value: FieldValue): (r: map<string, FieldValue>)
    ensures field in r && r[field] == value
    ensures r.Keys == form.Keys + {field}
    ensures forall k :: k in form && k != field ==> r[k] == form[k]
  {
    form[field := value]
  }

  /** How a value reads inside a template string. */
  function AsText(form: map<string, FieldValue>, field: string): string
  {
    if field !in form then "undefined"
    else match form[field]
      case Text(s) => s
      case Flag(b) => if b then "true" else "false"
  }

  /** `fullName`: first and last name joined by a space, trimmed. */
  function FullName(form: map<string, FieldValue>): (r: string)
    ensures Text.IsTrimmed(r)
  {
    Text.TrimIsTrimmed(AsText(form, "firstName") + " " + AsText(form, "lastName"));
    Text.Trim(AsText(form, "firstName") + " " + AsText(form, "lastName"))
  }

  /** The first character of every non-empty piece of `s` between single spaces. */
  function WordStarts(s: string, atStart: bool): (r: string)
    ensures |r| <= |s|
    ensures s != [] && s[0] != ' ' && atStart ==> r != [] && r[0] == s[0]
    ensures forall i :: 0 <= i < |r| ==> r[i] in s && r[i] != ' '
  {
    if s == [] then []
    else if s[0] == ' ' then WordStarts(s[1..], true)
    else (if atStart then [s[0]] else []) + WordStarts(s[1..], false)
  }

  /** The avatar fallback: the upper-cased initials of the name, or "U" when there are none. */
  function Initials(name: string): (r: string)
    ensures r != []
    ensures name == "" ==> r == "U"
    ensures name != "" && name[0] != ' ' ==> r[0] == Text.UpperChar(name[0]) && |r| <= |name|
  {
    var u := Text.Upper(WordStarts(name, true));
    if u == [] then "U" else u
  }

  /** The initials of the form's full name: "U" for an empty name, else they start with its first letter. */
  lemma InitialsOfFullName(form: map<string, FieldValue>)
    ensures FullName(form) == "" ==> Initials(FullName(form)) == "U"
    ensures FullName(form) != "" ==> Initials(FullName(form))[0] == Text.UpperChar(FullName(form)[0])
  {
    var n := FullName(form);
    if n != "" {
      assert Text.IsWhitespace(' ');
      assert n[0] != ' ';
    }
  }

  /** The form's state. */
  class UserForm {
    var formData: map<string, FieldValue>
    var selectedPermissions: seq<string>

    constructor()
      ensures formData == InitialForm && selectedPermissions == []
    {
      formData := InitialForm;
      selectedPermissions := [];
    }

    method HandleInputChange(field: string, value: FieldValue)
      modifies this
      ensures formData == SetField(old(formData), field, value)
      ensures selectedPermissions == old(selectedPermissions)
    {
      formData := SetField(formData, field, value);
    }

    /** `handlePermissionToggle`: checking appends the permission, unchecking removes every copy of it. */
    method HandlePermissionToggle(permission: string, checked: bool)
      modifies this
      ensures selectedPermissions == Lists.Toggle(old(selectedPermissions), permission, checked)
      ensures formData == old(formData)
    {
      selectedPermissions := Lists.Toggle(selectedPermissions, permission, checked);
    }

    method HandleCategoryToggle(c: Category, checked: bool)
      modifies this
      ensures selectedPermissions == CategoryToggle(old(selectedPermissions), c, checked)
      ensures formData == old(formData)
    {
      selectedPermissions := CategoryToggle(selectedPermissions, c, checked);
    }
  }
}
