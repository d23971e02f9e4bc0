/**
 * The formatting toolbar: fixed command buttons, two prompt-gated buttons,
 * and two dropdowns (font name, font size) whose selection the toolbar keeps.
 *
 * A call of a callback prop (`onChange`, `onFormatClick`) is modelled as a
 * value the handler returns: the caller runs the callback with it. A handler
 * that returns one value calls its callback exactly once.
 */
module Toolbar {
  import opened Wrappers
  import opened Host

  /** One call `onFormatClick(command, value?)`; `value` None is an omitted argument. */
  datatype FormatRequest = FormatRequest(command: string, value: Option<string>)

  datatype DropdownOption = DropdownOption(value: string, caption: string)

  const FontSizeOptions: seq<DropdownOption> := [
    DropdownOption("1", "Small"),
    DropdownOption("2", "Normal"),
    DropdownOption("3", "Medium"),
    DropdownOption("4", "Large"),
    DropdownOption("5", "X-Large"),
    DropdownOption("6", "XX-Large"),
    DropdownOption("7", "XXX-Large")
  ]

  const FontNameOptions: seq<DropdownOption> := [
    DropdownOption("Arial", "Arial"),
    DropdownOption("Courier New", "Courier New"),
    DropdownOption("Times New Roman", "Times New Roman"),
    DropdownOption("Georgia", "Georgia")
  ]

  /** Which option buttons carry the highlight class: the ones whose value is the current one. */
  function Highlights(options: seq<DropdownOption>, value: string): (r: seq<bool>)
    ensures |r| == |options|
    ensures forall i :: 0 <= i < |options| ==> (r[i] <==> options[i].value == value)
  {
    if options == [] then []
    else [options[0].value == value] + Highlights(options[1..], value)
  }

  /** A `Dropdown` instance: its options and its open flag. */
  class Dropdown {
    const options: seq<DropdownOption>
    var isOpen: bool

    constructor (options: seq<DropdownOption>)
      ensures this.options == options && !isOpen
    {
      this.options := options;
      isOpen := false;
    }

    /** The option buttons rendered: all of them while open, none while closed. */
    function Shown(): (r: seq<DropdownOption>)
      reads this
      ensures isOpen ==> r == options
      ensures !isOpen ==> r == []
    {
      if isOpen then options else []
    }

    /** The button's `onClick`: flips the open flag. */
    method Toggle()
      modifies this
      ensures isOpen == !old(isOpen)
      ensures Shown() == if old(isOpen) then [] else options
    {
      isOpen := !isOpen;
    }

    /** `handleSelect`: calls `onChange` once with the option's value (returned
        as `changed`), then closes. */
    method HandleSelect(optionValue: string) returns (changed: string)
      modifies this
      ensures changed == optionValue && !isOpen && Shown() == []
    {
      changed := optionValue;
      isOpen := false;
    }
  }

  /** The size dropdown's caption. */
  function SizeCaption(fontSize: string): (r: string)
    ensures |r| == |fontSize| + 5 && r[..5] == "Size " && r[5..] == fontSize
  {
    "Size " + fontSize
  }

  /** Two sizes show the same caption only if they are the same size. */
  lemma SizeCaptionInjective(a: string, b: string)
    requires SizeCaption(a) == SizeCaption(b)
    ensures a == b
  {
  }

  /** The toolbar's stateless buttons, left to right. */
  datatype Button =
    | Undo | Redo
    | Bold | Italic | Underline | Strikethrough
    | AlignLeft | AlignCenter | AlignRight
    | BulletList | NumberedList
    | InsertLink | InsertImage

  /** The command a button's handler names. */
  function ButtonCommand(b: Button): string {
    match b
    case Undo => "undo"
    case Redo => "redo"
    case Bold => "bold"
    case Italic => "italic"
    case Underline => "underline"
    case Strikethrough => "strikeThrough"
    case AlignLeft => "justifyLeft"
    case AlignCenter => "justifyCenter"
    case AlignRight => "justifyRight"
    case BulletList => "insertUnorderedList"
    case NumberedList => "insertOrderedList"
    case InsertLink => "createLink"
    case InsertImage => "insertImage"
  }

  /** The buttons that ask for a URL first. */
  predicate Prompts(b: Button) {
    b == InsertLink || b == InsertImage
  }

  /** Different buttons name different commands. */
  lemma ButtonCommandInjective(a: Button, b: Button)
    requires ButtonCommand(a) == ButtonCommand(b)
    ensures a == b
  {
  }

  /**
   * The `onFormatClick` call a button click makes, if any; `answer` is what
   * `window.prompt` returns for the two prompting buttons. A plain button
   * always requests its one command with no value; a prompting button
   * requests its command with the URL exactly when the answer is non-empty.
   */
  function ButtonRequest(b: Button, answer: Option<string>): (r: Option<FormatRequest>)
    ensures !Prompts(b) ==> r == Some(FormatRequest(ButtonCommand(b), None))
    ensures Prompts(b) ==> (r.Some? <==> answer.Some? && answer.value != "")
    ensures Prompts(b) && r.Some? ==> r.value == FormatRequest(ButtonCommand(b), answer)
  {
    if Prompts(b) then
      match AcceptedUrl(answer)
      case Some(url) => Some(FormatRequest(ButtonCommand(b), Some(url)))
      case None => None
    else Some(FormatRequest(ButtonCommand(b), None))
  }

  /** The `Toolbar` component: the current font name and size, and its two dropdowns. */
  class Toolbar {
    var fontSize: string
    var fontName: string
    const fontNameDropdown: Dropdown
    const fontSizeDropdown: Dropdown

    ghost predicate Valid()
      reads this
    {
      fontNameDropdown != fontSizeDropdown
      && fontNameDropdown.options == FontNameOptions
      && fontSizeDropdown.options == FontSizeOptions
    }

    constructor ()
      ensures Valid()
      ensures fontSize == "3" && fontName == "Arial"
      ensures fresh(fontNameDropdown) && fresh(fontSizeDropdown)
      ensures !fontNameDropdown.isOpen && !fontSizeDropdown.isOpen
    {
      fontSize := "3";
      fontName := "Arial";
      fontNameDropdown := new Dropdown(FontNameOptions);
      fontSizeDropdown := new Dropdown(FontSizeOptions);
    }

    /** `handleFontSizeChange`: records the size, then requests `fontSize` with it. */
    method HandleFontSizeChange(size: string) returns (request: FormatRequest)
      modifies this
      ensures fontSize == size && fontName == old(fontName)
      ensures request == FormatRequest("fontSize", Some(size))
    {
      fontSize := size;
      request := FormatRequest("fontSize", Some(size));
    }

    /** `handleFontNameChange`: records the font, then requests `fontName` with it. */
    method HandleFontNameChange(font: string) returns (request: FormatRequest)
      modifies this
      ensures fontName == font && fontSize == old(fontSize)
      ensures request == FormatRequest("fontName", Some(font))
    {
      fontName := font;
      request := FormatRequest("fontName", Some(font));
    }

    /** A click on the `i`-th option of the open size dropdown. */
    method SelectFontSize(i: nat) returns (request: FormatRequest)
      requires Valid() && fontSizeDropdown.isOpen && i < |FontSizeOptions|
      modifies this, fontSizeDropdown
      ensures Valid()
      ensures fontSize == FontSizeOptions[i].value && fontName == old(fontName)
      ensures SizeCaption(fontSize) == "Size " + FontSizeOptions[i].value
      ensures !fontSizeDropdown.isOpen && fontNameDropdown.isOpen == old(fontNameDropdown.isOpen)
      ensures request == FormatRequest("fontSize", Some(FontSizeOptions[i].value))
    {
      var changed := fontSizeDropdown.HandleSelect(fontSizeDropdown.options[i].value);
      request := HandleFontSizeChange(changed);
    }

    /** A click on the `i`-th option of the open font-name dropdown. */
    method SelectFontName(i: nat) returns (request: FormatRequest)
      requires Valid() && fontNameDropdown.isOpen && i < |FontNameOptions|
      modifies this, fontNameDropdown
      ensures Valid()
      ensures fontName == FontNameOptions[i].value && fontSize == old(fontSize)
      ensures !fontNameDropdown.isOpen && fontSizeDropdown.isOpen == old(fontSizeDropdown.isOpen)
      ensures request == FormatRequest("fontName", Some(FontNameOptions[i].value))
    {
      var changed := fontNameDropdown.HandleSelect(fontNameDropdown.options[i].value);
      request := HandleFontNameChange(changed);
    }
  }

  /**
   * The size dropdown from mount: caption "Size 3" with option "3" alone
   * highlighted; opening it and picking "5" shows "Size 5", highlights "5"
   * alone, and requests `fontSize` with "5" once.
   */
  method SizeScenario() returns (before: string, after: string, request: FormatRequest, highlighted: seq<bool>)
    ensures before == "Size 3" && after == "Size 5"
    ensures request == FormatRequest("fontSize", Some("5"))
    ensures highlighted == [false, false, false, false, true, false, false]
  {
    var toolbar := new Toolbar();
    before := SizeCaption(toolbar.fontSize);
    toolbar.fontSizeDropdown.Toggle();
    request := toolbar.SelectFontSize(4);
    after := SizeCaption(toolbar.fontSize);
    highlighted := Highlights(FontSizeOptions, toolbar.fontSize);
  }
}
