/** The system tray icon on Linux, served over D-Bus as a StatusNotifierItem
    by the `ksni` crate. The tray state (icon bytes, tooltip, menu) lives in
    an object the service reads; `LinuxTray` starts the service on first use
    and updates that state. Decoding the icon image is not modelled: the
    decoder's result is an input. */
module LinuxTray {
  import opened Wrappers

  // ---------------------------------------------------------------------
  // Menus

  /** The application's tray menu entries. */
  datatype TrayMenuItem =
    | Action(text: string, id: string)
    | Separator
    | Submenu(text: string, items: seq<TrayMenuItem>)
    | Toggle(text: string, checked: bool, id: string)

  /** The `ksni` menu items the tray hands to D-Bus, with the fields the
      conversion sets; every other field keeps its default. */
  datatype KsniMenuItem =
    | Standard(text: string, iconName: string, submenu: seq<KsniMenuItem>)
    | KsniSeparator

  const CHECKED_ICON: string := "checkbox-checked-symbolic"

  /** `convert_menu_item`: a separator stays a separator; every other entry
      becomes a standard item with the same text; a submenu's entries are
      converted one by one, in order; a toggle shows the checked icon
      exactly when it is checked. */
  function ConvertMenuItem(item: TrayMenuItem): (r: KsniMenuItem)
    ensures item.Separator? <==> r.KsniSeparator?
    ensures !item.Separator? ==> r.text == item.text
    ensures item.Action? ==> r.iconName == "" && r.submenu == []
    ensures item.Toggle? ==> r.submenu == [] && (r.iconName == CHECKED_ICON <==> item.checked)
    ensures item.Toggle? && !item.checked ==> r.iconName == ""
    ensures item.Submenu? ==>
      && r.iconName == ""
      && |r.submenu| == |item.items|
      && forall i :: 0 <= i < |item.items| ==> r.submenu[i] == ConvertMenuItem(item.items[i])
    decreases item
  {
    match item
    case Action(text, _) => Standard(text, "", [])
    case Separator => KsniSeparator
    case Submenu(text, items) => Standard(text, "", ConvertMenuItems(items))
    case Toggle(text, checked, _) => Standard(text, if checked then CHECKED_ICON else "", [])
  }

  /** The entries converted one by one: `items.iter().map(convert_menu_item)`. */
  function ConvertMenuItems(items: seq<TrayMenuItem>): (r: seq<KsniMenuItem>)
    ensures |r| == |items|
    ensures forall i :: 0 <= i < |items| ==> r[i] == ConvertMenuItem(items[i])
    decreases items
  {
    if items == [] then []
    else [ConvertMenuItem(items[0])] + ConvertMenuItems(items[1..])
  }

  /** The number of entries in a menu, counting those of submenus. */
  function ItemCount(items: seq<TrayMenuItem>): nat
    decreases items
  {
    if items == [] then 0
    else
      (match items[0]
       case Submenu(_, children) => 1 + ItemCount(children)
       case _ => 1)
      + ItemCount(items[1..])
  }

  function KsniItemCount(items: seq<KsniMenuItem>): nat
    decreases items
  {
    if items == [] then 0
    else
      (match items[0]
       case Standard(_, _, children) => 1 + KsniItemCount(children)
       case KsniSeparator => 1)
      + KsniItemCount(items[1..])
  }

  /** Converting a menu neither drops nor adds an entry at any depth. */
  lemma {:induction false} ConvertKeepsItemCount(items: seq<TrayMenuItem>)
    ensures KsniItemCount(ConvertMenuItems(items)) == ItemCount(items)
    decreases items
  {
    if items != [] {
      var r := ConvertMenuItems(items);
      assert r[1..] == ConvertMenuItems(items[1..]);
      ConvertKeepsItemCount(items[1..]);
      match items[0]
      case Submenu(_, children) =>
        ConvertKeepsItemCount(children);
      case _ =>
    }
  }

  /** The labels of a menu's entries, depth first; separators have none. */
  function Labels(items: seq<TrayMenuItem>): seq<string>
    decreases items
  {
    if items == [] then []
    else
      (match items[0]
       case Separator => []
       case Submenu(text, children) => [text] + Labels(children)
       case Action(text, _) => [text]
       case Toggle(text, _, _) => [text])
      + Labels(items[1..])
  }

  function KsniLabels(items: seq<KsniMenuItem>): seq<string>
    decreases items
  {
    if items == [] then []
    else
      (match items[0]
       case KsniSeparator => []
       case Standard(text, _, children) => [text] + KsniLabels(children))
      + KsniLabels(items[1..])
  }

  /** Converting a menu keeps every label, in the same order. */
  lemma {:induction false} ConvertKeepsLabels(items: seq<TrayMenuItem>)
    ensures KsniLabels(ConvertMenuItems(items)) == Labels(items)
    decreases items
  {
    if items != [] {
      var r := ConvertMenuItems(items);
      assert r[1..] == ConvertMenuItems(items[1..]);
      ConvertKeepsLabels(items[1..]);
      match items[0]
      case Submenu(_, children) =>
        ConvertKeepsLabels(children);
      case _ =>
    }
  }

  // ---------------------------------------------------------------------
  // Icons

  /** An image decoded to 8-bit RGBA, row by row. */
  datatype RgbaImage = RgbaImage(width: u32, height: u32, raw: seq<u8>)

  /** The icon format of the StatusNotifierItem protocol: ARGB bytes. */
  datatype Icon = Icon(width: i32, height: i32, data: seq<u8>)

  /** Each whole RGBA pixel reordered to ARGB; trailing bytes that do not
      make a whole pixel are dropped, as `chunks_exact` drops them. */
  function Argb(rgba: seq<u8>): (argb: seq<u8>)
    ensures |argb| == |rgba| / 4 * 4
    decreases |rgba|
  {
    if |rgba| < 4 then []
    else [rgba[3], rgba[0], rgba[1], rgba[2]] + Argb(rgba[4..])
  }

  /** Pixel `k` of the output is pixel `k` of the input with its alpha byte
      moved to the front. */
  lemma {:induction false} ArgbPixels(rgba: seq<u8>)
    ensures forall k :: 0 <= k < |rgba| / 4 ==>
      Argb(rgba)[4 * k..4 * k + 4] == [rgba[4 * k + 3], rgba[4 * k], rgba[4 * k + 1], rgba[4 * k + 2]]
    decreases |rgba|
  {
    if |rgba| >= 4 {
      var rest := rgba[4..];
      ArgbPixels(rest);
      var out := Argb(rgba);
      forall k | 0 <= k < |rgba| / 4
        ensures out[4 * k..4 * k + 4] == [rgba[4 * k + 3], rgba[4 * k], rgba[4 * k + 1], rgba[4 * k + 2]]
      {
        if k > 0 {
          assert out[4 * k..4 * k + 4] == Argb(rest)[4 * (k - 1)..4 * (k - 1) + 4];
          assert rest[4 * (k - 1)..4 * k] == rgba[4 * k..4 * k + 4];
        }
      }
    }
  }

  /** Moving the alpha byte of each ARGB pixel back to the end. */
  function Rgba(argb: seq<u8>): (rgba: seq<u8>)
    ensures |rgba| == |argb| / 4 * 4
    decreases |argb|
  {
    if |argb| < 4 then []
    else [argb[1], argb[2], argb[3], argb[0]] + Rgba(argb[4..])
  }

  /** No byte of a whole pixel is lost: the reordering is undone by moving
      the alpha byte back. */
  lemma {:induction false} ArgbRoundTrip(rgba: seq<u8>)
    requires |rgba| % 4 == 0
    ensures Rgba(Argb(rgba)) == rgba
    decreases |rgba|
  {
    if |rgba| >= 4 {
      var out := Argb(rgba);
      assert out[4..] == Argb(rgba[4..]);
      ArgbRoundTrip(rgba[4..]);
      assert rgba == rgba[..4] + rgba[4..];
    }
  }

  /** The loop of `icon_pixmap`: one whole pixel at a time, pushing alpha,
      red, green and blue. */
  method RgbaToArgb(raw: seq<u8>) returns (argb: seq<u8>)
    ensures argb == Argb(raw)
  {
    argb := [];
    var i := 0;
    while i + 4 <= |raw|
      invariant 0 <= i <= |raw|
      invariant argb + Argb(raw[i..]) == Argb(raw)
      decreases |raw| - i
    {
      var pixel := raw[i..i + 4];
      ghost var done := argb;
      assert raw[i..][4..] == raw[i + 4..];
      assert Argb(raw[i..]) == [pixel[3], pixel[0], pixel[1], pixel[2]] + Argb(raw[i + 4..]);
      argb := argb + [pixel[3]];
      argb := argb + [pixel[0]];
      argb := argb + [pixel[1]];
      argb := argb + [pixel[2]];
      assert argb == done + [pixel[3], pixel[0], pixel[1], pixel[2]];
      i := i + 4;
    }
  }

  // ---------------------------------------------------------------------
  // The tray state

  /** `GpuiTray`: the state the tray service reads. */
  class GpuiTray {
    var iconData: seq<u8>
    var tooltip: string
    var menuItems: seq<TrayMenuItem>

    constructor ()
      ensures iconData == [] && tooltip == "" && menuItems == []
    {
      iconData := [];
      tooltip := "";
      menuItems := [];
    }

    /** `title`: the tooltip text. */
    function Title(): (title: string)
      reads this
      ensures title == tooltip
    {
      tooltip
    }

    /** `menu`: one converted item per entry, in order. */
    function Menu(): (items: seq<KsniMenuItem>)
      reads this
      ensures |items| == |menuItems|
      ensures forall i :: 0 <= i < |menuItems| ==> items[i] == ConvertMenuItem(menuItems[i])
    {
      ConvertMenuItems(menuItems)
    }

    /** `icon_pixmap`: no icon without icon data or when the data does not
      decode (`decoded` is what decoding the data gives); otherwise exactly
      one icon, of the image's size, with the pixels in ARGB order. */
    method IconPixmap(decoded: Option<RgbaImage>) returns (icons: seq<Icon>)
      ensures iconData == [] || decoded.None? ==> icons == []
      ensures iconData != [] && decoded.Some? ==>
        icons == [Icon(U32AsI32(decoded.value.width), U32AsI32(decoded.value.height), Argb(decoded.value.raw))]
    {
      if iconData == [] {
        return [];
      }
      match decoded {
        case None =>
          icons := [];
        case Some(img) =>
          var data := RgbaToArgb(img.raw);
          icons := [Icon(U32AsI32(img.width), U32AsI32(img.height), data)];
      }
    }
  }

  /** `LinuxTray`: the handle to the running service, null before the
      first update. */
  class LinuxTray {
    var handle: GpuiTray?

    constructor ()
      ensures handle == null
    {
      handle := null;
    }

    /** `ensure_started`: starts the service, with an empty tray, only when
      it is not running yet. */
    method EnsureStarted()
      modifies this
      ensures old(handle) != null ==> handle == old(handle)
      ensures old(handle) == null ==>
        handle != null && fresh(handle) && handle.iconData == [] && handle.tooltip == "" && handle.menuItems == []
    {
      if handle != null {
        return;
      }
      handle := new GpuiTray();
    }

    /** `set_icon`: the new icon bytes, or none at all. */
    method SetIcon(iconData: Option<seq<u8>>)
      modifies this, handle
      ensures handle != null && (old(handle) != null ==> handle == old(handle))
      ensures handle.iconData == (if iconData.Some? then iconData.value else [])
      ensures old(handle) != null ==> handle.tooltip == old(handle.tooltip) && handle.menuItems == old(handle.menuItems)
      ensures old(handle) == null ==> fresh(handle) && handle.tooltip == "" && handle.menuItems == []
    {
      EnsureStarted();
      var data := if iconData.Some? then iconData.value else [];
      handle.iconData := data;
    }

    /** `set_tooltip`. */
    method SetTooltip(tooltip: string)
      modifies this, handle
      ensures handle != null && (old(handle) != null ==> handle == old(handle))
      ensures handle.tooltip == tooltip && handle.Title() == tooltip
      ensures old(handle) != null ==> handle.iconData == old(handle.iconData) && handle.menuItems == old(handle.menuItems)
      ensures old(handle) == null ==> fresh(handle) && handle.iconData == [] && handle.menuItems == []
    {
      EnsureStarted();
      handle.tooltip := tooltip;
    }

    /** `set_menu`. */
    method SetMenu(items: seq<TrayMenuItem>)
      modifies this, handle
      ensures handle != null && (old(handle) != null ==> handle == old(handle))
      ensures handle.menuItems == items && handle.Menu() == ConvertMenuItems(items)
      ensures old(handle) != null ==> handle.iconData == old(handle.iconData) && handle.tooltip == old(handle.tooltip)
      ensures old(handle) == null ==> fresh(handle) && handle.iconData == [] && handle.tooltip == ""
    {
      EnsureStarted();
      handle.menuItems := items;
    }
  }
}
