/** The category manager (components/CategoryManager.tsx): the colour and
    emoji tables, the lookups over them, and the state of the add/edit form
    with its submit guard and error messages. The database write is an
    output of `HandleSubmit` and its outcome an input. */
module CategoryManager {
  import opened Optional
  import opened Seqs
  import opened JsString

  /** A gradient and background colour the user can pick for a category. */
  datatype ColorOption = ColorOption(name: string, from: string, to: string, bg: string)

  const ColorOptions: seq<ColorOption> := [
    ColorOption("Sunset", "from-orange-400", "to-red-500", "bg-orange-100"),
    ColorOption("Fire", "from-red-500", "to-orange-600", "bg-red-100"),
    ColorOption("Peach", "from-orange-300", "to-pink-400", "bg-orange-50"),
    ColorOption("Rose", "from-rose-400", "to-red-500", "bg-rose-100"),
    ColorOption("Pink", "from-pink-400", "to-rose-500", "bg-pink-100"),
    ColorOption("Fuchsia", "from-fuchsia-400", "to-pink-600", "bg-fuchsia-100"),
    ColorOption("Purple", "from-purple-400", "to-pink-500", "bg-purple-100"),
    ColorOption("Violet", "from-violet-500", "to-purple-600", "bg-violet-100"),
    ColorOption("Ocean", "from-blue-400", "to-indigo-500", "bg-blue-100"),
    ColorOption("Sky", "from-sky-400", "to-blue-500", "bg-sky-100"),
    ColorOption("Indigo", "from-indigo-400", "to-purple-500", "bg-indigo-100"),
    ColorOption("Navy", "from-blue-600", "to-indigo-700", "bg-blue-100"),
    ColorOption("Emerald", "from-green-400", "to-emerald-500", "bg-green-100"),
    ColorOption("Mint", "from-emerald-300", "to-teal-400", "bg-emerald-50"),
    ColorOption("Forest", "from-green-500", "to-emerald-600", "bg-green-100"),
    ColorOption("Teal", "from-teal-400", "to-cyan-500", "bg-teal-100"),
    ColorOption("Cyan", "from-cyan-400", "to-teal-500", "bg-cyan-100"),
    ColorOption("Aqua", "from-cyan-300", "to-blue-400", "bg-cyan-50"),
    ColorOption("Gold", "from-yellow-400", "to-orange-500", "bg-yellow-100"),
    ColorOption("Amber", "from-amber-400", "to-orange-500", "bg-amber-100"),
    ColorOption("Lemon", "from-yellow-300", "to-lime-400", "bg-yellow-50"),
    ColorOption("Lime", "from-lime-400", "to-green-500", "bg-lime-100"),
    ColorOption("Slate", "from-slate-400", "to-gray-600", "bg-slate-100"),
    ColorOption("Gray", "from-gray-400", "to-slate-500", "bg-gray-100"),
    ColorOption("Rainbow", "from-pink-500", "to-violet-500", "bg-gradient-to-r from-pink-50 to-violet-50"),
    ColorOption("Aurora", "from-green-400", "to-blue-500", "bg-gradient-to-r from-green-50 to-blue-50"),
    ColorOption("Twilight", "from-purple-500", "to-indigo-600", "bg-purple-100"),
    ColorOption("Coral", "from-red-400", "to-pink-500", "bg-red-50")
  ]

  /** The emoji picker's groups, keyed by their tab label, in tab order. */
  const EmojiCategories: seq<(string, seq<string>)> := [
    ("💰 Finance", [
      "💰", "💵", "💴", "💶", "💷", "💳", "💸", "🏦", "📈", "📉",
      "💹", "🪙", "💎", "🏧", "💲"
    ]),
    ("🍔 Food & Drink", [
      "🍔", "🍕", "🍜", "🍱", "🍣", "🍪", "🍩", "🍦", "🍷", "🍺",
      "☕", "🧁", "🥗", "🌮", "🍝", "🥡", "🍳", "🥐", "🥪", "🍿"
    ]),
    ("🚗 Transport", [
      "🚗", "🚕", "🚌", "🚇", "🚲", "✈️", "🚀", "🛳️", "⛽", "🚁",
      "🛵", "🚃", "🚂", "🛴", "🚤"
    ]),
    ("🏠 Home", [
      "🏠", "🏡", "🏢", "🛋️", "🛏️", "🚿", "🪴", "🧹", "🔑", "🏗️",
      "🧺", "🛁", "🪑", "🚪", "💡"
    ]),
    ("🛍️ Shopping", [
      "🛍️", "🛒", "👗", "👟", "👜", "💍", "👕", "👖", "🧥", "👠",
      "🎒", "👔", "🧴", "💄", "🎀"
    ]),
    ("🎬 Entertainment", [
      "🎬", "🎮", "🎵", "🎤", "🎧", "📺", "🎭", "🎪", "🎨", "🎯",
      "🎲", "🎳", "🎰", "🎻", "🎹"
    ]),
    ("💼 Work", [
      "💼", "📊", "📁", "📋", "✏️", "📝", "💻", "🖥️", "📱", "⌨️",
      "🖨️", "📞", "📧", "🗂️", "📎"
    ]),
    ("📚 Education", [
      "📚", "🎓", "📖", "✏️", "🔬", "🔭", "🧪", "📐", "🎒", "🏫",
      "📝", "🧮", "🗃️", "📏", "🖊️"
    ]),
    ("🏥 Health", [
      "🏥", "💊", "💉", "🩺", "🩹", "🧘", "🏋️", "🚴", "🏃", "🧬",
      "❤️", "🦷", "👁️", "🩻", "🩼"
    ]),
    ("✈️ Travel", [
      "✈️", "🏝️", "🏔️", "🗺️", "🧳", "🏕️", "🎢", "🗼", "🗽", "🏰",
      "⛱️", "🌴", "🚢", "🎡", "⛺"
    ]),
    ("🐾 Pets", [
      "🐾", "🐕", "🐈", "🐦", "🐠", "🐹", "🐰", "🦜", "🐢", "🐍",
      "🦮", "🐩", "🦴", "🪺", "🦎"
    ]),
    ("🎁 Gifts", [
      "🎁", "💐", "🎂", "🎉", "🎊", "🎈", "💝", "🌹", "🧸", "🎀",
      "🍾", "🥳", "🎄", "🎃", "💒"
    ]),
    ("📦 Other", [
      "📦", "🔧", "🔨", "⚙️", "🧰", "🪛", "🔩", "⛏️", "🧲", "🔌",
      "📡", "🛠️", "⚡", "🔋", "💡"
    ])
  ]

  /** The tab labels are distinct, as the keys of an object literal are. */
  lemma EmojiKeysDistinct()
    ensures forall i, j :: 0 <= i < j < |EmojiCategories| ==> EmojiCategories[i].0 != EmojiCategories[j].0
  {
  }

  /** The colour names are distinct, so a name picks one option. */
  lemma ColorNamesDistinct()
    ensures forall i, j :: 0 <= i < j < |ColorOptions| ==> ColorOptions[i].name != ColorOptions[j].name
  {
  }

  /** The predicate `find` is given: `(c) => c.name === colorName`. */
  function HasName(colorName: string): ColorOption -> bool
  {
    (c: ColorOption) => c.name == colorName
  }

  /** `options.find((c) => c.name === colorName)`. */
  function FindNamed(options: seq<ColorOption>, colorName: string): (r: Option<ColorOption>)
    ensures r.None? <==> forall i :: 0 <= i < |options| ==> options[i].name != colorName
    ensures r.Some? ==> r.value in options && r.value.name == colorName
  {
    FindFirst(options, HasName(colorName))
  }

  /** The option `find` returns for a name in the table, if any. */
  function FindColor(colorName: string): (r: Option<ColorOption>)
    ensures r.None? <==> forall i :: 0 <= i < |ColorOptions| ==> ColorOptions[i].name != colorName
    ensures r.Some? ==> r.value in ColorOptions && r.value.name == colorName
  {
    FindNamed(ColorOptions, colorName)
  }

  /** A listed name finds its own option, since the names are distinct. */
  lemma FindColorAt(i: nat)
    requires i < |ColorOptions|
    ensures FindColor(ColorOptions[i].name) == Some(ColorOptions[i])
  {
    ColorNamesDistinct();
    FindFirstAt(ColorOptions, HasName(ColorOptions[i].name), i);
    assert FindColor(ColorOptions[i].name) == FindFirst(ColorOptions, HasName(ColorOptions[i].name));
  }

  /** The "Gray" option; the table has one, so the non-null assertion holds. */
  function Gray(): (g: ColorOption)
    ensures g in ColorOptions && g.name == "Gray"
    ensures g == ColorOptions[23]
  {
    var gray := ColorOptions[23];
    assert gray.name == "Gray";
    FindColorAt(23);
    FindColor("Gray").value
  }

  /** `getColorConfig`: the option named `colorName`, or "Gray" when there
      is none. */
  function GetColorConfig(colorName: string): (c: ColorOption)
    ensures c in ColorOptions
    ensures FindColor(colorName).Some? ==> c.name == colorName
    ensures FindColor(colorName).None? ==> c == Gray()
  {
    match FindColor(colorName)
    case Some(c) => c
    case None => Gray()
  }

  /** A listed name finds its own option. */
  lemma GetColorConfigListed(i: nat)
    requires i < |ColorOptions|
    ensures GetColorConfig(ColorOptions[i].name) == ColorOptions[i]
  {
    FindColorAt(i);
  }

  /** An unlisted name gets the "Gray" entry of the table. */
  lemma GetColorConfigUnlisted(colorName: string)
    requires forall k :: 0 <= k < |ColorOptions| ==> ColorOptions[k].name != colorName
    ensures GetColorConfig(colorName) == ColorOptions[23]
  {
  }

  /** `Object.values(groups).flat()`: every group's emojis, in group order. */
  function Flatten(groups: seq<(string, seq<string>)>): seq<string>
  {
    if groups == [] then [] else Flatten(Init(groups)) + Last(groups).1
  }

  /** The flattened list holds exactly the emojis of the groups. */
  lemma {:induction false} FlattenSpec(groups: seq<(string, seq<string>)>)
    ensures forall i, j :: 0 <= i < |groups| && 0 <= j < |groups[i].1| ==> groups[i].1[j] in Flatten(groups)
    ensures forall e :: e in Flatten(groups) ==> exists i :: 0 <= i < |groups| && e in groups[i].1
  {
    if groups != [] {
      var rest := Init(groups);
      FlattenSpec(rest);
      forall e | e in Flatten(groups)
        ensures exists i :: 0 <= i < |groups| && e in groups[i].1
      {
        if e in Flatten(rest) {
          var i :| 0 <= i < |rest| && e in rest[i].1;
          assert groups[i] == rest[i];
        } else {
          assert e in groups[|groups| - 1].1;
        }
      }
    }
  }

  /** `groups[key] || []`. */
  function EmojisOf(groups: seq<(string, seq<string>)>, key: string): seq<string>
  {
    match FindFirst(groups, (g: (string, seq<string>)) => g.0 == key)
    case Some(g) => g.1
    case None => []
  }

  /** `getFilteredEmojis` over a table of groups: with a blank search, the
      active tab's emojis; otherwise every emoji, unfiltered by the search
      text. */
  function FilteredEmojis(groups: seq<(string, seq<string>)>, search: string, active: string): seq<string>
  {
    if Trim(search) == "" then EmojisOf(groups, active) else Flatten(groups)
  }

  /** With distinct keys: a blank search shows the active group, or nothing
      for an unknown key; a non-blank search shows the whole flattened list
      whatever it says. */
  lemma FilteredEmojisSpec(groups: seq<(string, seq<string>)>, search: string, active: string)
    requires forall i, j :: 0 <= i < j < |groups| ==> groups[i].0 != groups[j].0
    ensures AllWhitespace(search) ==>
              && (forall i :: 0 <= i < |groups| && groups[i].0 == active ==> FilteredEmojis(groups, search, active) == groups[i].1)
              && ((forall i :: 0 <= i < |groups| ==> groups[i].0 != active) ==> FilteredEmojis(groups, search, active) == [])
    ensures !AllWhitespace(search) ==> FilteredEmojis(groups, search, active) == Flatten(groups)
  {
    TrimEmptyIff(search);
    var r := FindFirst(groups, (g: (string, seq<string>)) => g.0 == active);
    if r.Some? {
      var k :| 0 <= k < |groups| && groups[k] == r.value && groups[k].0 == active;
      forall i | 0 <= i < |groups| && groups[i].0 == active
        ensures EmojisOf(groups, active) == groups[i].1
      {
        if i != k {
          assert false;
        }
      }
    }
  }

  /** The picker's own table: the first tab is the initial one. */
  function GetFilteredEmojis(search: string, active: string): seq<string>
  {
    FilteredEmojis(EmojiCategories, search, active)
  }

  /** The picker on its own table: a blank search on a listed tab shows that
      tab, and an unlisted tab shows nothing. */
  lemma GetFilteredEmojisSpec(search: string, i: nat)
    requires i < |EmojiCategories|
    ensures AllWhitespace(search) ==> GetFilteredEmojis(search, EmojiCategories[i].0) == EmojiCategories[i].1
    ensures !AllWhitespace(search) ==> GetFilteredEmojis(search, EmojiCategories[i].0) == Flatten(EmojiCategories)
  {
    EmojiKeysDistinct();
    FilteredEmojisSpec(EmojiCategories, search, EmojiCategories[i].0);
  }

  /** A row of the `categories` table, with the fields the manager edits. */
  datatype Category = Category(id: string, name: string, icon: string, color: string)

  datatype CategoryForm = CategoryForm(name: string, icon: string, color: string)

  const BlankForm: CategoryForm := CategoryForm("", "📦", "Gray")

  /** The write `handleSubmit` sends: an update of the edited row, or an
      insert for the signed-in user. */
  datatype Write =
    | Update(id: string, name: string, icon: string, color: string)
    | Insert(userId: string, name: string, icon: string, color: string)

  /** How the write ended: saved, or failed with the error's `code` if it has one. */
  datatype SaveOutcome = Saved | SaveFailed(code: Option<string>)

  const DuplicateName: string := "A category with this name already exists"
  const SaveFailedMessage: string := "Failed to save category"

  /** The alert for a failed save: a unique-constraint violation is the
      duplicate-name message, anything else the generic one. */
  function SaveErrorMessage(code: Option<string>): (m: string)
    ensures m == DuplicateName <==> code == Some("23505")
    ensures m == SaveFailedMessage <==> code != Some("23505")
  {
    if code == Some("23505") then DuplicateName else SaveFailedMessage
  }

  /** The write for the form, or `None` when there is no user or the name
      is blank (`if (editingId)` tests a non-empty id). */
  function SubmitWrite(user: Option<string>, editingId: Option<string>, form: CategoryForm): (w: Option<Write>)
    ensures w.None? <==> user.None? || Trim(form.name) == ""
    ensures w.Some? ==> w.value.name == Trim(form.name) && w.value.icon == form.icon && w.value.color == form.color
    ensures w.Some? ==> (w.value.Update? <==> editingId.Some? && editingId.value != "")
    ensures w.Some? && w.value.Update? ==> w.value.id == editingId.value
    ensures w.Some? && w.value.Insert? ==> w.value.userId == user.value
  {
    if user.None? || Trim(form.name) == "" then None
    else if editingId.Some? && editingId.value != "" then
      Some(Update(editingId.value, Trim(form.name), form.icon, form.color))
    else Some(Insert(user.value, Trim(form.name), form.icon, form.color))
  }

  /** The name written is never blank and has no edge whitespace. */
  lemma SubmitWriteName(user: Option<string>, editingId: Option<string>, form: CategoryForm)
    requires SubmitWrite(user, editingId, form).Some?
    ensures var n := SubmitWrite(user, editingId, form).value.name;
            n != "" && !IsWhitespace(n[0]) && !IsWhitespace(n[|n| - 1]) && Trim(n) == n
  {
    TrimHasNoEdgeWhitespace(form.name);
    TrimIdempotent(form.name);
  }

  /** The blank form can never be submitted. */
  lemma BlankFormNeverSubmits(user: Option<string>, editingId: Option<string>)
    ensures SubmitWrite(user, editingId, BlankForm).None?
  {
    assert TrimStart(BlankForm.name) == "";
  }

  /** The manager's form and picker state. */
  class Manager {
    var form: CategoryForm
    var showForm: bool
    var editingId: Option<string>
    var saving: bool
    var showEmojiPicker: bool
    var emojiSearch: string
    var activeEmojiCategory: string
    var showColorPicker: bool

    constructor()
      ensures form == BlankForm && !showForm && editingId == None && !saving
      ensures !showEmojiPicker && emojiSearch == "" && activeEmojiCategory == EmojiCategories[0].0
      ensures !showColorPicker
    {
      form, showForm, editingId, saving := BlankForm, false, None, false;
      showEmojiPicker, emojiSearch, activeEmojiCategory := false, "", EmojiCategories[0].0;
      showColorPicker := false;
    }

    /** `handleSubmit`, with the write's outcome as an input. It returns the
        write sent, the alert shown and whether the list is refreshed. After
        a save the form is blank, hidden and not editing; after a failure it
        is kept and the alert says why. */
    method HandleSubmit(user: Option<string>, outcome: SaveOutcome)
      returns (write: Option<Write>, alert: Option<string>, refresh: bool)
      modifies this
      ensures write == SubmitWrite(user, old(editingId), old(form))
      ensures write.None? ==>
                && alert == None && !refresh
                && form == old(form) && showForm == old(showForm) && editingId == old(editingId) && saving == old(saving)
      ensures write.Some? && outcome.Saved? ==>
                && alert == None && refresh
                && form == BlankForm && !showForm && editingId == None && !saving
      ensures write.Some? && outcome.SaveFailed? ==>
                && alert == Some(SaveErrorMessage(outcome.code)) && !refresh
                && form == old(form) && showForm == old(showForm) && editingId == old(editingId) && !saving
      ensures showEmojiPicker == old(showEmojiPicker) && emojiSearch == old(emojiSearch)
      ensures activeEmojiCategory == old(activeEmojiCategory) && showColorPicker == old(showColorPicker)
    {
      write := SubmitWrite(user, editingId, form);
      if write.None? {
        alert, refresh := None, false;
        return;
      }
      saving := true;
      alert, refresh := FinishSave(outcome);
    }

    /** The end of `handleSubmit` once the write was sent: on success the
        form is reset and the list refreshed, on failure the alert is chosen
        from the error; `saving` is cleared either way. */
    method FinishSave(outcome: SaveOutcome) returns (alert: Option<string>, refresh: bool)
      modifies this
      ensures outcome.Saved? ==>
                alert == None && refresh && form == BlankForm && !showForm && editingId == None
      ensures outcome.SaveFailed? ==>
                && alert == Some(SaveErrorMessage(outcome.code)) && !refresh
                && form == old(form) && showForm == old(showForm) && editingId == old(editingId)
      ensures !saving
      ensures showEmojiPicker == old(showEmojiPicker) && emojiSearch == old(emojiSearch)
      ensures activeEmojiCategory == old(activeEmojiCategory) && showColorPicker == old(showColorPicker)
    {
      alert, refresh := None, false;
      if outcome.Saved? {
        form, showForm, editingId := BlankForm, false, None;
        refresh := true;
      } else {
        alert := Some(SaveErrorMessage(outcome.code));
      }
      saving := false;
    }

    /** `startEditing`: the form takes the category's fields and opens. */
    method StartEditing(category: Category)
      modifies this
      ensures editingId == Some(category.id) && showForm
      ensures form == CategoryForm(category.name, category.icon, category.color)
      ensures saving == old(saving) && showEmojiPicker == old(showEmojiPicker) && emojiSearch == old(emojiSearch)
      ensures activeEmojiCategory == old(activeEmojiCategory) && showColorPicker == old(showColorPicker)
    {
      editingId := Some(category.id);
      form := CategoryForm(category.name, category.icon, category.color);
      showForm := true;
    }

    /** `cancelForm`: blank, hidden, not editing, both pickers closed and
        the search cleared. */
    method CancelForm()
      modifies this
      ensures !showForm && editingId == None && form == BlankForm
      ensures !showEmojiPicker && !showColorPicker && emojiSearch == ""
      ensures saving == old(saving) && activeEmojiCategory == old(activeEmojiCategory)
    {
      showForm, editingId, form := false, None, BlankForm;
      showEmojiPicker, showColorPicker, emojiSearch := false, false, "";
    }

    /** `selectEmoji`: only the icon changes; the emoji picker closes and its
        search is cleared. */
    method SelectEmoji(emoji: string)
      modifies this
      ensures form == old(form).(icon := emoji)
      ensures !showEmojiPicker && emojiSearch == ""
      ensures showForm == old(showForm) && editingId == old(editingId) && saving == old(saving)
      ensures activeEmojiCategory == old(activeEmojiCategory) && showColorPicker == old(showColorPicker)
    {
      form := form.(icon := emoji);
      showEmojiPicker, emojiSearch := false, "";
    }

    /** `selectColor`: only the colour changes and the colour picker closes. */
    method SelectColor(colorName: string)
      modifies this
      ensures form == old(form).(color := colorName)
      ensures !showColorPicker
      ensures showForm == old(showForm) && editingId == old(editingId) && saving == old(saving)
      ensures showEmojiPicker == old(showEmojiPicker) && emojiSearch == old(emojiSearch)
      ensures activeEmojiCategory == old(activeEmojiCategory)
    {
      form := form.(color := colorName);
      showColorPicker := false;
    }
  }
}
