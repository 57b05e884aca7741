/** The profile screen: an editable personal-information form, four setting
    switches, and the recent-activity list. */
module Profile {

  // ---------------------------------------------------------------------
  // The form

  /** The form's fields; each Input passes one of these names to
      `updateFormData`. */
  datatype FormField = FirstName | LastName | Email | Phone | Bio

  datatype FormData = FormData(firstName: string, lastName: string, email: string, phone: string, bio: string)

  /** `formData[field]`. */
  function FieldValue(data: FormData, field: FormField): string
  {
    match field
    case FirstName => data.firstName
    case LastName => data.lastName
    case Email => data.email
    case Phone => data.phone
    case Bio => data.bio
  }

  /** `{ ...data, [field]: value }`: the named field takes the new value and
      every other field keeps its old one. */
  function WithField(data: FormData, field: FormField, value: string): (r: FormData)
    ensures FieldValue(r, field) == value
    ensures forall g :: g != field ==> FieldValue(r, g) == FieldValue(data, g)
  {
    match field
    case FirstName => data.(firstName := value)
    case LastName => data.(lastName := value)
    case Email => data.(email := value)
    case Phone => data.(phone := value)
    case Bio => data.(bio := value)
  }

  /** A form is determined by the values of its five fields. */
  lemma FormDataExtensional(a: FormData, b: FormData)
    requires forall f :: FieldValue(a, f) == FieldValue(b, f)
    ensures a == b
  {
    assert FieldValue(a, FirstName) == FieldValue(b, FirstName);
    assert FieldValue(a, LastName) == FieldValue(b, LastName);
    assert FieldValue(a, Email) == FieldValue(b, Email);
    assert FieldValue(a, Phone) == FieldValue(b, Phone);
    assert FieldValue(a, Bio) == FieldValue(b, Bio);
  }

  /** Writing a field twice keeps only the second value; writing the same
      value twice is the same as writing it once. */
  lemma WithFieldLastWins(data: FormData, field: FormField, v: string, w: string)
    ensures WithField(WithField(data, field, v), field, w) == WithField(data, field, w)
    ensures WithField(WithField(data, field, v), field, v) == WithField(data, field, v)
  {
    FormDataExtensional(WithField(WithField(data, field, v), field, w), WithField(data, field, w));
    FormDataExtensional(WithField(WithField(data, field, v), field, v), WithField(data, field, v));
  }

  /** Edits of two different fields can happen in either order. */
  lemma WithFieldCommutes(data: FormData, f: FormField, v: string, g: FormField, w: string)
    requires f != g
    ensures WithField(WithField(data, f, v), g, w) == WithField(WithField(data, g, w), f, v)
  {
    FormDataExtensional(WithField(WithField(data, f, v), g, w), WithField(WithField(data, g, w), f, v));
  }

  /** Writing back a field's own value changes nothing. */
  lemma WithFieldSameValue(data: FormData, field: FormField)
    ensures WithField(data, field, FieldValue(data, field)) == data
  {
    FormDataExtensional(WithField(data, field, FieldValue(data, field)), data);
  }

  /** The fields of the form's Inputs, top to bottom ("First Name", "Last
      Name", "Email", "Phone Number", "Bio"). */
  const Inputs: seq<FormField> := [FirstName, LastName, Email, Phone, Bio]

  /** Every field has exactly one Input, so editing one Input changes one
      field that no other Input shows. */
  lemma InputsEditDistinctFields()
    ensures forall i, j :: 0 <= i < j < |Inputs| ==> Inputs[i] != Inputs[j]
    ensures forall f: FormField :: f in Inputs
  {
    forall f: FormField
      ensures f in Inputs
    {
      match f
      case FirstName => assert Inputs[0] == f;
      case LastName => assert Inputs[1] == f;
      case Email => assert Inputs[2] == f;
      case Phone => assert Inputs[3] == f;
      case Bio => assert Inputs[4] == f;
    }
  }

  const InitialFormData: FormData := FormData(
    "John",
    "Doe",
    "john.doe@example.com",
    "+1 (555) 123-4567",
    "Real estate enthusiast looking for the perfect investment property.")

  // ---------------------------------------------------------------------
  // The settings

  /** The switches; each passes one of these names to `updateSetting`. */
  datatype SettingKey = Notifications | EmailAlerts | MarketUpdates | DarkMode

  datatype Settings = Settings(notifications: bool, emailAlerts: bool, marketUpdates: bool, darkMode: bool)

  /** `settings[key]`. */
  function SettingValue(s: Settings, key: SettingKey): bool
  {
    match key
    case Notifications => s.notifications
    case EmailAlerts => s.emailAlerts
    case MarketUpdates => s.marketUpdates
    case DarkMode => s.darkMode
  }

  /** `{ ...s, [key]: value }`: the named switch takes the new value and
      the other three keep theirs. */
  function WithSetting(s: Settings, key: SettingKey, value: bool): (r: Settings)
    ensures SettingValue(r, key) == value
    ensures forall k :: k != key ==> SettingValue(r, k) == SettingValue(s, k)
  {
    match key
    case Notifications => s.(notifications := value)
    case EmailAlerts => s.(emailAlerts := value)
    case MarketUpdates => s.(marketUpdates := value)
    case DarkMode => s.(darkMode := value)
  }

  /** Settings are determined by the values of their four switches. */
  lemma SettingsExtensional(a: Settings, b: Settings)
    requires forall k :: SettingValue(a, k) == SettingValue(b, k)
    ensures a == b
  {
    assert SettingValue(a, Notifications) == SettingValue(b, Notifications);
    assert SettingValue(a, EmailAlerts) == SettingValue(b, EmailAlerts);
    assert SettingValue(a, MarketUpdates) == SettingValue(b, MarketUpdates);
    assert SettingValue(a, DarkMode) == SettingValue(b, DarkMode);
  }

  /** Flipping a switch twice to the same position is flipping it once; the
      last position wins. */
  lemma WithSettingLastWins(s: Settings, key: SettingKey, v: bool, w: bool)
    ensures WithSetting(WithSetting(s, key, v), key, w) == WithSetting(s, key, w)
  {
    SettingsExtensional(WithSetting(WithSetting(s, key, v), key, w), WithSetting(s, key, w));
  }

  /** Changes to two different switches can happen in either order. */
  lemma WithSettingCommutes(s: Settings, a: SettingKey, v: bool, b: SettingKey, w: bool)
    requires a != b
    ensures WithSetting(WithSetting(s, a, v), b, w) == WithSetting(WithSetting(s, b, w), a, v)
  {
    SettingsExtensional(WithSetting(WithSetting(s, a, v), b, w), WithSetting(WithSetting(s, b, w), a, v));
  }

  /** The settings of the switches, top to bottom ("Push Notifications",
      "Email Alerts", "Market Updates", "Dark Mode"). */
  const Switches: seq<SettingKey> := [Notifications, EmailAlerts, MarketUpdates, DarkMode]

  /** Every setting has exactly one switch. */
  lemma SwitchesDriveDistinctSettings()
    ensures forall i, j :: 0 <= i < j < |Switches| ==> Switches[i] != Switches[j]
    ensures forall k: SettingKey :: k in Switches
  {
    forall k: SettingKey
      ensures k in Switches
    {
      match k
      case Notifications => assert Switches[0] == k;
      case EmailAlerts => assert Switches[1] == k;
      case MarketUpdates => assert Switches[2] == k;
      case DarkMode => assert Switches[3] == k;
    }
  }

  const InitialSettings: Settings := Settings(true, false, true, false)

  // ---------------------------------------------------------------------
  // Recent activity

  /** The glyph in an activity row's icon circle: an eye, a heart or a
      telephone receiver. */
  datatype ActivityGlyph = Eye | Heart | Telephone

  /** The glyph for an activity's action text. */
  function ActivityIcon(action: string): (g: ActivityGlyph)
    ensures g == Eye <==> action == "Viewed Property"
    ensures g == Heart <==> action == "Saved to Favorites"
    ensures g == Telephone <==> action != "Viewed Property" && action != "Saved to Favorites"
  {
    if action == "Viewed Property" then Eye
    else if action == "Saved to Favorites" then Heart
    else Telephone
  }

  /** Whether row `index` of `count` rows draws a bottom border. */
  function HasBorder(index: nat, count: nat): bool
  {
    index != count - 1
  }

  /** The borders of a list of `count` rows, top to bottom. */
  function Borders(count: nat): (b: seq<bool>)
    ensures |b| == count
  {
    seq(count, i requires 0 <= i < count => HasBorder(i, count))
  }

  /** Every row has a bottom border except the last one. */
  lemma OnlyLastRowUnbordered(count: nat)
    requires count > 0
    ensures !Borders(count)[count - 1]
    ensures forall i :: 0 <= i < count - 1 ==> Borders(count)[i]
  {
  }

  // ---------------------------------------------------------------------
  // The screen's state

  class ProfileScreen {
    var formData: FormData
    var settings: Settings

    /** The screen opens with the sample user and the default switches:
        notifications and market updates on, email alerts and dark mode off. */
    constructor ()
      ensures formData == InitialFormData
      ensures settings == InitialSettings
      ensures SettingValue(settings, Notifications) && !SettingValue(settings, EmailAlerts)
      ensures SettingValue(settings, MarketUpdates) && !SettingValue(settings, DarkMode)
    {
      formData := InitialFormData;
      settings := InitialSettings;
    }

    /** `updateFormData(field, value)`, from an Input's text change. */
    method UpdateFormData(field: FormField, value: string)
      modifies this
      ensures formData == WithField(old(formData), field, value)
      ensures FieldValue(formData, field) == value
      ensures forall g :: g != field ==> FieldValue(formData, g) == FieldValue(old(formData), g)
      ensures settings == old(settings)
    {
      formData := WithField(formData, field, value);
    }

    /** `updateSetting(key, value)`, from a switch being flipped. */
    method UpdateSetting(key: SettingKey, value: bool)
      modifies this
      ensures settings == WithSetting(old(settings), key, value)
      ensures SettingValue(settings, key) == value
      ensures forall k :: k != key ==> SettingValue(settings, k) == SettingValue(old(settings), k)
      ensures formData == old(formData)
    {
      settings := WithSetting(settings, key, value);
    }
  }
}
