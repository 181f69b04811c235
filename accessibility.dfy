/**
 * Accessibility helpers: the ARIA label texts, the id generator for ARIA
 * relationships, and the keyboard handlers for lists (arrow keys, Home and
 * End move a focused index; Enter and Space activate).
 *
 * A keyboard handler's effects are returned: whether it prevents the
 * browser's default action, and the index it sets or whether it calls back.
 */
module Accessibility {
  import opened Common

  // ------------------------------------------------------------ ARIA labels

  /** `navItem`: the name, marked when it is the current page. */
  function NavItemLabel(name: string, current: bool := false): (r: string)
    ensures StartsWith(r, name)
    ensures r == name <==> !current
    ensures current ==> r == name + ", current page"
  {
    name + (if current then ", current page" else "")
  }

  /** `button`: the action, then the target after a space when there is one. */
  function ButtonLabel(action: string, target: string := ""): (r: string)
    ensures StartsWith(r, action)
    ensures target == "" ==> r == action
    ensures target != "" ==> r == action + " " + target
  {
    action + (if target != "" then " " + target else "")
  }

  /** `link`: the text, with a warning when it opens a new tab. */
  function LinkLabel(text: string, external: bool := false): (r: string)
    ensures StartsWith(r, text)
    ensures r == text <==> !external
    ensures external ==> r == text + ", opens in new tab"
  {
    text + (if external then ", opens in new tab" else "")
  }

  /** `image`: nothing for a decorative image, else the alt text or 'Image'. */
  function ImageLabel(alt: string, decorative: bool := false): (r: string)
    ensures decorative <==> r == ""
    ensures !decorative && alt != "" ==> r == alt
    ensures !decorative && alt == "" ==> r == "Image"
  {
    if decorative then "" else if alt != "" then alt else "Image"
  }

  /** `formField`: the label, then ", required", then ", has error", each only when it applies. */
  function FormFieldLabel(caption: string, required: bool := false, error: bool := false): (r: string)
    ensures StartsWith(r, caption)
    ensures |r| == |caption| + (if required then 10 else 0) + (if error then 11 else 0)
    ensures required ==> r[|caption|..|caption| + 10] == ", required"
    ensures error ==> r[|r| - 11..] == ", has error"
  {
    caption + (if required then ", required" else "") + (if error then ", has error" else "")
  }

  /** The required and error markings are independent: each adds its own suffix. */
  lemma FormFieldComposes(caption: string, required: bool, error: bool)
    ensures FormFieldLabel(caption, required, error)
            == FormFieldLabel(caption, required, false) + FormFieldLabel("", false, error)
  {
  }

  /** `status`: the kind, ": ", then the message; the kind is 'info' unless given. */
  function StatusLabel(message: string, kind: string := "info"): (r: string)
    ensures StartsWith(r, kind + ": ")
    ensures |r| == |kind| + 2 + |message| && r[|kind| + 2..] == message
  {
    kind + ": " + message
  }

  /** `tableCell`: a header cell is marked; a cell is not a header unless told. */
  function TableCellLabel(content: string, header: bool := false): (r: string)
    ensures header ==> r == "header " + content
    ensures !header ==> r == content
  {
    (if header then "header " else "") + content
  }

  /** `progress`: the caption, ": ", then "<current> of <total> complete"; the caption is 'progress' unless given. */
  function ProgressLabel(current: int, total: int, caption: string := "progress"): (r: string)
    ensures StartsWith(r, caption + ": ")
    ensures r[|caption| + 2..] == IntToString(current) + " of " + IntToString(total) + " complete"
  {
    var head, tail := caption + ": ", IntToString(current) + " of " + IntToString(total) + " complete";
    assert (head + tail)[|head|..] == tail;
    head + tail
  }

  /** The labels with their defaults left out: an optional marking is off, the kind is 'info', the caption 'progress'. */
  lemma DefaultArguments(name: string, action: string, text: string, alt: string,
                          caption: string, message: string, content: string, current: int, total: int)
    ensures NavItemLabel(name) == name
    ensures ButtonLabel(action) == action
    ensures LinkLabel(text) == text
    ensures ImageLabel(alt) == (if alt != "" then alt else "Image")
    ensures FormFieldLabel(caption) == caption
    ensures StatusLabel(message) == "info: " + message
    ensures TableCellLabel(content) == content
    ensures StartsWith(ProgressLabel(current, total), "progress: ")
  {
  }

  // ------------------------------------------------------------ ids

  /** The id the generator hands out when its counter reaches `k`. */
  function IdFor(prefix: string, k: nat): string
  {
    prefix + "-" + NatToString(k)
  }

  lemma SuffixDigits(prefix: string, k: nat, j: int)
    requires |IdFor(prefix, k)| - |NatToString(k)| <= j < |IdFor(prefix, k)|
    ensures IsAsciiDigit(IdFor(prefix, k)[j])
    ensures IdFor(prefix, k)[|IdFor(prefix, k)| - |NatToString(k)| - 1] == '-'
  {
    NatToStringDigits(k);
    var s := IdFor(prefix, k);
    assert s[j] == NatToString(k)[j - (|s| - |NatToString(k)|)];
  }

  /**
   * Ids handed out at different counter values differ, whatever the
   * prefixes: the digits after the last '-' give the counter back.
   */
  lemma IdsDistinct(p: string, q: string, a: nat, b: nat)
    requires a != b
    ensures IdFor(p, a) != IdFor(q, b)
  {
    var s, t := IdFor(p, a), IdFor(q, b);
    var da, db := NatToString(a), NatToString(b);
    if s == t {
      if |da| == |db| {
        assert s[|s| - |da|..] == da;
        assert t[|t| - |db|..] == db;
        NatToStringInjective(a, b);
      } else if |da| < |db| {
        SuffixDigits(p, a, |s| - 1);
        SuffixDigits(q, b, |t| - |da| - 1);
      } else {
        SuffixDigits(q, b, |t| - 1);
        SuffixDigits(p, a, |s| - |db| - 1);
      }
    }
  }

  /** The module's `idCounter`, with `generateId`. */
  class IdGenerator {
    var counter: nat

    constructor()
      ensures counter == 0
    {
      counter := 0;
    }

    /** `generateId`: the counter goes up by one and the id carries its new value; the prefix is 'id' unless given. */
    method GenerateId(prefix: string := "id") returns (id: string)
      modifies this
      ensures counter == old(counter) + 1
      ensures id == IdFor(prefix, counter)
    {
      counter := counter + 1;
      id := IdFor(prefix, counter);
    }
  }

  /** A fresh generator called with the default prefix hands out "id-1". */
  method FirstDefaultId() returns (id: string)
    ensures id == "id-1"
  {
    var g := new IdGenerator();
    id := g.GenerateId();
  }

  // ------------------------------------------------------------ keyboard navigation

  function Min(a: int, b: int): int { if a < b then a else b }
  function Max(a: int, b: int): int { if a < b then b else a }

  /** What a key handler does: whether it prevents the default, and the index it sets, if any. */
  datatype ArrowResult = ArrowResult(prevented: bool, newIndex: Option<int>)

  /** `handleArrowKeys` on a list of `count` items. */
  function HandleArrowKeys(key: string, count: int, current: int): (r: ArrowResult)
    ensures r.prevented <==> r.newIndex.Some?
    ensures r.prevented <==> key in {"ArrowDown", "ArrowUp", "Home", "End"}
    ensures key == "ArrowDown" ==> r.newIndex == Some(Min(current + 1, count - 1))
    ensures key == "ArrowUp" ==> r.newIndex == Some(Max(current - 1, 0))
  {
    if key == "ArrowDown" then ArrowResult(true, Some(Min(current + 1, count - 1)))
    else if key == "ArrowUp" then ArrowResult(true, Some(Max(current - 1, 0)))
    else if key == "Home" then ArrowResult(true, Some(0))
    else if key == "End" then ArrowResult(true, Some(count - 1))
    else ArrowResult(false, None)
  }

  /** On a non-empty list the handled keys keep the index on an item. */
  lemma ArrowKeysStayInList(key: string, count: int, current: int)
    requires 0 <= current < count
    ensures HandleArrowKeys(key, count, current).newIndex.Some? ==>
            0 <= HandleArrowKeys(key, count, current).newIndex.value < count
    ensures key == "Home" ==> HandleArrowKeys(key, count, current).newIndex == Some(0)
    ensures key == "End" ==> HandleArrowKeys(key, count, current).newIndex == Some(count - 1)
  {
  }

  /** Down then up returns to the item, unless the first step hit the last item. */
  lemma DownThenUp(count: int, current: int)
    requires 0 <= current < count - 1
    ensures var down := HandleArrowKeys("ArrowDown", count, current).newIndex.value;
            HandleArrowKeys("ArrowUp", count, down).newIndex == Some(current)
  {
  }

  /** At the ends of the list the arrows stay put. */
  lemma ArrowsClampAtEnds(count: int)
    requires count >= 1
    ensures HandleArrowKeys("ArrowDown", count, count - 1).newIndex == Some(count - 1)
    ensures HandleArrowKeys("ArrowUp", count, 0).newIndex == Some(0)
  {
  }

  datatype ActivationResult = ActivationResult(prevented: bool, calledBack: bool)

  /** `handleActivation`: only Enter and Space call back, and only they prevent the default. */
  function HandleActivation(key: string): (r: ActivationResult)
    ensures r.calledBack <==> key == "Enter" || key == " "
    ensures r.prevented == r.calledBack
  {
    if key == "Enter" || key == " " then ActivationResult(true, true) else ActivationResult(false, false)
  }

  /** No key is handled both as navigation and as activation. */
  lemma NavigationAndActivationDisjoint(key: string, count: int, current: int)
    ensures !(HandleArrowKeys(key, count, current).prevented && HandleActivation(key).prevented)
  {
  }
}
