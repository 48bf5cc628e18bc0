/**
 * `Qgs3DBoundingBoxSettings`: whether the 3D bounding box is shown, its extent, and four display
 * options. Copy, assignment and comparison involve only the enabled flag and the extent; the XML
 * form holds the attributes `enabled` ("1" or "0") and `extent`.
 *
 * The textual form of an extent (`QgsAABB::toString` / `fromString`) is floating-point formatting;
 * it is a pair of functions passed in, and the round trip assumes they invert each other.
 */
module BoundingBoxSettings {
  import opened Dom

  /** `QgsAABB`: an axis-aligned box; the default one is all zeros. */
  datatype AABB = AABB(xMin: real, yMin: real, zMin: real, xMax: real, yMax: real, zMax: real)

  /** `QColor` as 8-bit red, green, blue and alpha. */
  datatype Color = Color(red: int, green: int, blue: int, alpha: int)

  const Black := Color(0, 0, 0, 255)
  const DefaultTicks := 7

  const Int32Max := 0x7fff_ffff
  const Int32Min := -0x8000_0000

  predicate IsDigit(c: char) { '0' as int <= c as int <= '9' as int }

  /** The value of a non-empty run of decimal digits. */
  function DigitsValue(s: string): nat
    requires forall i | 0 <= i < |s| :: IsDigit(s[i])
  {
    if s == [] then 0
    else
      assert IsDigit(s[|s| - 1]);
      10 * DigitsValue(s[..|s| - 1]) + (s[|s| - 1] as int - '0' as int)
  }

  predicate AllDigits(s: string) {
    |s| > 0 && forall i | 0 <= i < |s| :: IsDigit(s[i])
  }

  /** `QChar::isSpace`: the ASCII white space, and the Unicode line, paragraph and space separators. */
  predicate IsSpace(c: char) {
    var u := c as int;
    (9 <= u <= 13) || u == 32 || u == 0x85 || u == 0xa0 || u == 0x1680 || (0x2000 <= u <= 0x200a)
    || u == 0x2028 || u == 0x2029 || u == 0x202f || u == 0x205f || u == 0x3000
  }

  /** The text without its leading white space. */
  function TrimStart(s: string): (r: string)
    ensures |r| <= |s|
  {
    if s != [] && IsSpace(s[0]) then TrimStart(s[1..]) else s
  }

  /** The text without its trailing white space. */
  function TrimEnd(s: string): (r: string)
    ensures |r| <= |s|
  {
    if s != [] && IsSpace(s[|s| - 1]) then TrimEnd(s[..|s| - 1]) else s
  }

  /** The text without the white space around it. */
  function Trim(s: string): (r: string)
    ensures |r| <= |s|
  {
    TrimEnd(TrimStart(s))
  }

  /** An optional sign and decimal digits denoting a 32-bit value; anything else converts to 0. */
  function ParseInt(t: string): (n: int)
    ensures Int32Min <= n <= Int32Max
  {
    var signed := |t| > 0 && (t[0] == '-' || t[0] == '+');
    var sign := if signed && t[0] == '-' then -1 else 1;
    var digits := if signed then t[1..] else t;
    if AllDigits(digits) && Int32Min <= sign * DigitsValue(digits) <= Int32Max then sign * DigitsValue(digits)
    else 0
  }

  /** `QString::toInt()`: white space around the text is skipped, and the rest must be a 32-bit decimal number. */
  function ToInt(s: string): (n: int)
    ensures Int32Min <= n <= Int32Max
  {
    ParseInt(Trim(s))
  }

  /** `TrimStart` keeps a suffix that is empty or starts with a non-space, and drops only white space. */
  lemma {:induction false} TrimStartSuffix(s: string)
    ensures TrimStart(s) == s[|s| - |TrimStart(s)|..]
    ensures TrimStart(s) == [] || !IsSpace(TrimStart(s)[0])
    ensures forall i | 0 <= i < |s| - |TrimStart(s)| :: IsSpace(s[i])
  {
    if s != [] && IsSpace(s[0]) {
      TrimStartSuffix(s[1..]);
      assert forall i | 1 <= i < |s| - |TrimStart(s)| :: s[i] == s[1..][i - 1];
    }
  }

  /** `TrimEnd` keeps a prefix that is empty or ends with a non-space. */
  lemma {:induction false} TrimEndPrefix(s: string)
    ensures TrimEnd(s) == s[..|TrimEnd(s)|]
    ensures TrimEnd(s) == [] || !IsSpace(TrimEnd(s)[|TrimEnd(s)| - 1])
  {
    if s != [] && IsSpace(s[|s| - 1]) {
      TrimEndPrefix(s[..|s| - 1]);
    }
  }

  lemma {:induction false} TrimStartSkips(pre: string, s: string)
    requires forall i | 0 <= i < |pre| :: IsSpace(pre[i])
    ensures TrimStart(pre + s) == TrimStart(s)
    decreases |pre|
  {
    if pre == [] {
      assert pre + s == s;
    } else {
      assert (pre + s)[0] == pre[0];
      assert (pre + s)[1..] == pre[1..] + s;
      TrimStartSkips(pre[1..], s);
    }
  }

  lemma {:induction false} TrimEndSkips(s: string, post: string)
    requires forall i | 0 <= i < |post| :: IsSpace(post[i])
    ensures TrimEnd(s + post) == TrimEnd(s)
    decreases |post|
  {
    if post == [] {
      assert s + post == s;
    } else {
      assert (s + post)[|s + post| - 1] == post[|post| - 1];
      assert (s + post)[..|s + post| - 1] == s + post[..|post| - 1];
      TrimEndSkips(s, post[..|post| - 1]);
    }
  }

  /** White space before and after a text does not change what is left of it once trimmed. */
  lemma TrimIgnoresSpaces(pre: string, s: string, post: string)
    requires forall i | 0 <= i < |pre| :: IsSpace(pre[i])
    requires forall i | 0 <= i < |post| :: IsSpace(post[i])
    ensures Trim(pre + s + post) == Trim(s)
  {
    assert pre + s + post == pre + (s + post);
    TrimStartSkips(pre, s + post);
    var a := TrimStart(s);
    TrimStartSuffix(s);
    var lead := s[..|s| - |a|];
    assert s == lead + a;
    assert s + post == lead + (a + post);
    TrimStartSkips(lead, a + post);
    if a == [] {
      assert a + post == post;
      TrimStartSkips(post, []);
      assert post + [] == post;
    } else {
      assert TrimStart(a + post) == a + post;
      TrimEndSkips(a, post);
    }
  }

  /** White space before and after a number does not change what `toInt()` makes of it. */
  lemma ToIntIgnoresSpaces(pre: string, s: string, post: string)
    requires forall i | 0 <= i < |pre| :: IsSpace(pre[i])
    requires forall i | 0 <= i < |post| :: IsSpace(post[i])
    ensures ToInt(pre + s + post) == ToInt(s)
  {
    TrimIgnoresSpaces(pre, s, post);
  }

  /** A text that `toInt()` turns into a nonzero value holds a nonzero digit. */
  lemma ToIntHasDigit(s: string)
    requires ToInt(s) != 0
    ensures exists i | 0 <= i < |s| :: '1' <= s[i] <= '9'
  {
    var t := Trim(s);
    TrimStartSuffix(s);
    TrimEndPrefix(TrimStart(s));
    ParsedHasDigit(t);
    var k :| 0 <= k < |t| && '1' <= t[k] <= '9';
    assert s[|s| - |TrimStart(s)| + k] == t[k];
  }

  /** A text that parses to a nonzero value holds a nonzero digit. */
  lemma ParsedHasDigit(t: string)
    requires ParseInt(t) != 0
    ensures exists k | 0 <= k < |t| :: '1' <= t[k] <= '9'
  {
    var signed := |t| > 0 && (t[0] == '-' || t[0] == '+');
    var digits := if signed then t[1..] else t;
    NonzeroHasDigit(digits);
    var k :| 0 <= k < |digits| && '1' <= digits[k] <= '9';
    assert t[|t| - |digits| + k] == digits[k];
  }

  /** A nonzero value has a nonzero digit. */
  lemma {:induction false} NonzeroHasDigit(d: string)
    requires forall i | 0 <= i < |d| :: IsDigit(d[i])
    requires DigitsValue(d) != 0
    ensures exists k | 0 <= k < |d| :: '1' <= d[k] <= '9'
  {
    var last := d[|d| - 1];
    if last == '0' {
      NonzeroHasDigit(d[..|d| - 1]);
      var k :| 0 <= k < |d| - 1 && '1' <= d[..|d| - 1][k] <= '9';
      assert d[k] == d[..|d| - 1][k];
    }
  }

  /** What `readXml` makes of the `enabled` attribute (default "0"): a nonzero integer is true. */
  function EnabledFromString(s: string): (enabled: bool)
    ensures enabled ==> exists i | 0 <= i < |s| :: '1' <= s[i] <= '9'
  {
    if ToInt(s) == 0 then false else ToIntHasDigit(s); true
  }

  /** What `writeXml` writes for the enabled flag. */
  function EnabledToString(enabled: bool): string {
    if enabled then "1" else "0"
  }

  /** The enabled flag survives writing and reading. */
  lemma EnabledRoundTrip(enabled: bool)
    ensures EnabledFromString(EnabledToString(enabled)) == enabled
  {
    assert TrimStart("1") == "1" && TrimEnd("1") == "1";
    assert TrimStart("0") == "0" && TrimEnd("0") == "0";
    assert "1"[..0] == [] && "0"[..0] == [];
    assert DigitsValue("1") == 1 && DigitsValue("0") == 0;
  }

  /** A missing `enabled` attribute reads as "0", i.e. false. */
  lemma MissingEnabledIsFalse(e: Element<string>)
    requires e.Null? || "enabled" !in e.attributes
    ensures !EnabledFromString(Attribute(e, "enabled", "0"))
  {
    EnabledRoundTrip(false);
  }

  /** Any decimal digit string with a nonzero value (in the 32-bit range) reads as true. */
  lemma NonzeroReadsEnabled(s: string)
    requires AllDigits(s) && 0 < DigitsValue(s) <= Int32Max
    ensures EnabledFromString(s)
  {
    assert !(|s| > 0 && (s[0] == '-' || s[0] == '+'));
    assert !IsSpace(s[0]) && !IsSpace(s[|s| - 1]);
    assert Trim(s) == s;
  }

  class Qgs3DBoundingBoxSettings {
    var enabled: bool
    var boundingBox: AABB
    var nrTicks: int
    var color: Color
    var full: bool
    var showIn2DView: bool

    /** The default constructor: disabled, default extent, default display options. */
    constructor ()
      ensures !enabled && boundingBox == AABB(0.0, 0.0, 0.0, 0.0, 0.0, 0.0)
      ensures nrTicks == DefaultTicks && color == Black && full && !showIn2DView
    {
      enabled := false;
      boundingBox := AABB(0.0, 0.0, 0.0, 0.0, 0.0, 0.0);
      nrTicks := DefaultTicks;
      color := Black;
      full := true;
      showIn2DView := false;
    }

    /** The `(enabled, boundingBox)` constructor: the display options keep their defaults. */
    constructor FromValues(enabled: bool, boundingBox: AABB)
      ensures this.enabled == enabled && this.boundingBox == boundingBox
      ensures nrTicks == DefaultTicks && color == Black && full && !showIn2DView
    {
      this.enabled := enabled;
      this.boundingBox := boundingBox;
      nrTicks := DefaultTicks;
      color := Black;
      full := true;
      showIn2DView := false;
    }

    /** The copy constructor copies the flag and the extent only. */
    constructor Copy(other: Qgs3DBoundingBoxSettings)
      ensures enabled == other.enabled && boundingBox == other.boundingBox
      ensures nrTicks == DefaultTicks && color == Black && full && !showIn2DView
    {
      enabled := other.enabled;
      boundingBox := other.boundingBox;
      nrTicks := DefaultTicks;
      color := Black;
      full := true;
      showIn2DView := false;
    }

    /** `operator=` copies the flag and the extent; the display options stay as they were. */
    method Assign(rhs: Qgs3DBoundingBoxSettings)
      modifies this
      ensures enabled == old(rhs.enabled) && boundingBox == old(rhs.boundingBox)
      ensures nrTicks == old(nrTicks) && color == old(color) && full == old(full)
      ensures showIn2DView == old(showIn2DView)
    {
      enabled := rhs.enabled;
      boundingBox := rhs.boundingBox;
    }

    /** `operator==`: the flag and the extent; the display options are not compared. */
    function Equals(rhs: Qgs3DBoundingBoxSettings): (same: bool)
      reads this, rhs
      ensures same <==> (enabled, boundingBox) == (rhs.enabled, rhs.boundingBox)
    {
      var out := true;
      var out := out && enabled == rhs.enabled;
      out && boundingBox == rhs.boundingBox
    }

    /** `operator!=`. */
    function NotEquals(rhs: Qgs3DBoundingBoxSettings): (differ: bool)
      reads this, rhs
      ensures differ <==> enabled != rhs.enabled || boundingBox != rhs.boundingBox
    {
      !Equals(rhs)
    }

    /** `readXml`: the flag from `enabled` (default "0"), the extent parsed from `extent`. */
    method ReadXml(element: Element<string>, fromString: string -> AABB)
      modifies this
      ensures enabled == EnabledFromString(Attribute(element, "enabled", "0"))
      ensures boundingBox == fromString(Attribute(element, "extent", ""))
      ensures nrTicks == old(nrTicks) && color == old(color) && full == old(full)
      ensures showIn2DView == old(showIn2DView)
    {
      var enabledStr := Attribute(element, "enabled", "0");
      enabled := if ToInt(enabledStr) != 0 then true else false;
      var extentString := Attribute(element, "extent", "");
      boundingBox := fromString(extentString);
    }

    /** `writeXml`: a null element is returned as it is; otherwise the two attributes are set. */
    function WriteXml(element: Element<string>, toString: AABB -> string): (written: Element<string>)
      reads this
      ensures element.Null? ==> written.Null?
      ensures element.Node? ==>
                (written.Node? &&
                 written.attributes == element.attributes["enabled" := EnabledToString(enabled)]["extent" := toString(boundingBox)])
    {
      if element.Null? then Null
      else
        var e := SetAttribute(element, "enabled", EnabledToString(enabled));
        SetAttribute(e, "extent", toString(boundingBox))
    }
  }

  /** Writing then reading restores the flag and, when the extent codec round-trips, the extent. */
  lemma ReadWriteRoundTrip(enabled: bool, box: AABB, e: Element<string>,
                           toString: AABB -> string, fromString: string -> AABB)
    requires e.Node?
    requires fromString(toString(box)) == box
    ensures var w := SetAttribute(SetAttribute(e, "enabled", EnabledToString(enabled)), "extent", toString(box));
      EnabledFromString(Attribute(w, "enabled", "0")) == enabled && fromString(Attribute(w, "extent", "")) == box
  {
    EnabledRoundTrip(enabled);
  }
}
