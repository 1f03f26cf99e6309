/** The menu item schema of models/MenuItem.js: its validators, its `trim` setter and its defaults. */
module MenuItemModel {
  import opened Results

  /** One stored menu item; `id` is the document's _id. */
  datatype MenuItem = MenuItem(
    id: string,
    name: string,
    description: string,
    serving: string,
    price: real,
    category: string,
    popular: bool,
    spicy: bool,
    active: bool,
    image: string,
    createdAt: int)

  /** The closed set the `enum` validator of `category` admits. */
  const Categories: seq<string> := ["smokedMeats", "sides", "sandwiches"]

  predicate IsCategory(c: string)
  {
    c in Categories
  }

  /** The characters String.prototype.trim removes: ECMAScript WhiteSpace and LineTerminator. */
  predicate IsSpace(ch: char)
  {
    || ch == '\t' || ch == '\n' || ch == '\U{000B}' || ch == '\U{000C}' || ch == '\r' || ch == ' '
    || ch == '\U{00A0}' || ch == '\U{1680}' || ('\U{2000}' <= ch <= '\U{200A}')
    || ch == '\U{2028}' || ch == '\U{2029}' || ch == '\U{202F}' || ch == '\U{205F}'
    || ch == '\U{3000}' || ch == '\U{FEFF}'
  }

  /** How many spaces s starts with. */
  function LeadingSpaces(s: string): (k: nat)
    ensures k <= |s|
    ensures forall i :: 0 <= i < k ==> IsSpace(s[i])
    ensures k < |s| ==> !IsSpace(s[k])
  {
    if s != [] && IsSpace(s[0]) then 1 + LeadingSpaces(s[1..]) else 0
  }

  /** How many spaces s ends with. */
  function TrailingSpaces(s: string): (k: nat)
    ensures k <= |s|
    ensures forall i :: |s| - k <= i < |s| ==> IsSpace(s[i])
    ensures k < |s| ==> !IsSpace(s[|s| - 1 - k])
  {
    if s != [] && IsSpace(s[|s| - 1]) then 1 + TrailingSpaces(s[..|s| - 1]) else 0
  }

  /** The `trim: true` setter of `name`: String.prototype.trim. */
  function Trim(s: string): (t: string)
    ensures |t| <= |s|
    ensures t == [] || (!IsSpace(t[0]) && !IsSpace(t[|t| - 1]))
  {
    var t := s[LeadingSpaces(s)..];
    t[..|t| - TrailingSpaces(t)]
  }

  /** The trimmed string is the run of s between the leading and the trailing spaces, and
      starts and ends with a non-space. */
  lemma TrimCutsOnlySpaces(s: string)
    ensures var i, t := LeadingSpaces(s), Trim(s);
      && i + |t| <= |s| && t == s[i..i + |t|]
      && (forall k :: 0 <= k < i ==> IsSpace(s[k]))
      && (forall k :: i + |t| <= k < |s| ==> IsSpace(s[k]))
      && (t == [] || (!IsSpace(t[0]) && !IsSpace(t[|t| - 1])))
  {
    var i := LeadingSpaces(s);
    var u := s[i..];
    var j := TrailingSpaces(u);
    forall k | i + |Trim(s)| <= k < |s| ensures IsSpace(s[k]) {
      assert s[k] == u[k - i];
    }
  }

  /** Trimming twice is trimming once: the setter is stable on a stored name. */
  lemma TrimIdempotent(s: string)
    ensures Trim(Trim(s)) == Trim(s)
  {
    var t := Trim(s);
    TrimCutsOnlySpaces(s);
    if t != [] {
      assert LeadingSpaces(t) == 0;
      assert TrailingSpaces(t[0..]) == 0;
    }
  }

  /** A document the schema accepts: name, description and serving present (a required
      String must be non-empty), name stored trimmed, price at least 0, category in the enum. */
  predicate ValidMenuItem(m: MenuItem)
  {
    && m.name != "" && Trim(m.name) == m.name
    && m.description != ""
    && m.serving != ""
    && m.price >= 0.0
    && IsCategory(m.category)
  }

  /** The fields a request body may carry; None is a field the body leaves out. */
  datatype MenuItemFields = MenuItemFields(
    name: Option<string>,
    description: Option<string>,
    serving: Option<string>,
    price: Option<real>,
    category: Option<string>,
    popular: Option<bool>,
    spicy: Option<bool>,
    active: Option<bool>,
    image: Option<string>,
    createdAt: Option<int>)

  /** Every field the body does carry passes its path's validators (after the name is trimmed). */
  predicate FieldsPassValidators(f: MenuItemFields)
  {
    && (f.name.Some? ==> Trim(f.name.value) != "")
    && (f.description.Some? ==> f.description.value != "")
    && (f.serving.Some? ==> f.serving.value != "")
    && (f.price.Some? ==> f.price.value >= 0.0)
    && (f.category.Some? ==> IsCategory(f.category.value))
  }

  predicate HasRequiredFields(f: MenuItemFields)
  {
    f.name.Some? && f.description.Some? && f.serving.Some? && f.price.Some? && f.category.Some?
  }

  /** `new MenuItem(body)` followed by validation: the defaults fill the optional fields
      (createdAt with the clock reading `now`), the setter trims the name, and the document exists only if every validator passes. */
  function NewMenuItem(id: string, f: MenuItemFields, now: int): (r: Option<MenuItem>)
    ensures r.Some? <==> HasRequiredFields(f) && FieldsPassValidators(f)
    ensures r.Some? ==> ValidMenuItem(r.value) && r.value.id == id && r.value.createdAt == f.createdAt.GetOr(now)
    ensures r.Some? ==>
      && r.value.name == Trim(f.name.value) && r.value.description == f.description.value
      && r.value.serving == f.serving.value && r.value.price == f.price.value
      && r.value.category == f.category.value
      && r.value.popular == f.popular.GetOr(false) && r.value.spicy == f.spicy.GetOr(false)
      && r.value.active == f.active.GetOr(true) && r.value.image == f.image.GetOr("")
  {
    if HasRequiredFields(f) && FieldsPassValidators(f) then
      var m := MenuItem(id, Trim(f.name.value), f.description.value, f.serving.value, f.price.value,
        f.category.value, f.popular.GetOr(false), f.spicy.GetOr(false), f.active.GetOr(true),
        f.image.GetOr(""), f.createdAt.GetOr(now));
      TrimIdempotent(f.name.value);
      Some(m)
    else None
  }

  /** The schema defaults: a body that gives only the required fields yields a document that
      is not popular, not spicy, active, has an empty image and was created at `now`. */
  lemma NewMenuItemDefaults(id: string, f: MenuItemFields, now: int)
    requires HasRequiredFields(f) && FieldsPassValidators(f)
    requires f.popular.None? && f.spicy.None? && f.active.None? && f.image.None? && f.createdAt.None?
    ensures NewMenuItem(id, f, now).Some?
    ensures var m := NewMenuItem(id, f, now).value;
      !m.popular && !m.spicy && m.active && m.image == "" && m.createdAt == now
  {
  }

  /** An update body applied to a stored document (`findByIdAndUpdate`), name trimmed. */
  function ApplyFields(m: MenuItem, f: MenuItemFields): MenuItem
  {
    MenuItem(m.id,
      if f.name.Some? then Trim(f.name.value) else m.name,
      f.description.GetOr(m.description),
      f.serving.GetOr(m.serving),
      f.price.GetOr(m.price),
      f.category.GetOr(m.category),
      f.popular.GetOr(m.popular),
      f.spicy.GetOr(m.spicy),
      f.active.GetOr(m.active),
      f.image.GetOr(m.image),
      f.createdAt.GetOr(m.createdAt))
  }

  /** The update writes exactly the fields the body carries, the name trimmed, and keeps
      every other field and the id. */
  lemma ApplyFieldsWrites(m: MenuItem, f: MenuItemFields)
    ensures var r := ApplyFields(m, f);
      && r.id == m.id
      && r.createdAt == (if f.createdAt.Some? then f.createdAt.value else m.createdAt)
      && r.name == (if f.name.Some? then Trim(f.name.value) else m.name)
      && r.description == (if f.description.Some? then f.description.value else m.description)
      && r.serving == (if f.serving.Some? then f.serving.value else m.serving)
      && r.price == (if f.price.Some? then f.price.value else m.price)
      && r.category == (if f.category.Some? then f.category.value else m.category)
      && r.popular == (if f.popular.Some? then f.popular.value else m.popular)
      && r.spicy == (if f.spicy.Some? then f.spicy.value else m.spicy)
      && r.active == (if f.active.Some? then f.active.value else m.active)
      && r.image == (if f.image.Some? then f.image.value else m.image)
  {
  }

  /** With update validators on, an update that passes them keeps a valid document valid. */
  lemma ApplyFieldsKeepsValid(m: MenuItem, f: MenuItemFields)
    requires ValidMenuItem(m) && FieldsPassValidators(f)
    ensures ValidMenuItem(ApplyFields(m, f))
    ensures ApplyFields(m, f).id == m.id
    ensures ApplyFields(m, f).createdAt == (if f.createdAt.Some? then f.createdAt.value else m.createdAt)
  {
    if f.name.Some? {
      TrimIdempotent(f.name.value);
    }
  }
}
