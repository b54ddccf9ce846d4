/**
 * The model-name table of DeviceIdentifier: a `switch` over raw hardware
 * identifiers whose every `case` returns a display-name literal, and whose
 * `default` returns the identifier it was given.
 *
 * The switch is modelled as a first-match lookup over the sequence of its
 * cases in source order (`Lookup`), so that the properties of the table
 * (distinct labels, non-empty names, pass-through) can be stated and proved.
 */
module ModelNames {

  /** One `case` of the switch: the label and the name it returns. */
  type Case = (string, string)

  /** Identifiers the simulator reports (DeviceIdentifier.swift:49-51). */
  const Simulators: seq<Case> := [
    ("i386", "iOS Simulator 32-bit"),
    ("x86_64", "iOS Simulator 64-bit"),
    ("arm64", "iOS Simulator M1")
  ]

  /** Phone-class identifiers, generations 4 to 14 (DeviceIdentifier.swift:53-91). */
  const IPhones: seq<Case> := IPhones4To7 + IPhones8To9 + IPhones10To11 + IPhones12To14

  const IPhones4To7: seq<Case> := [
    ("iPhone4,1", "iPhone 4s"),
    ("iPhone5,1", "iPhone 5 (GSM)"),
    ("iPhone5,2", "iPhone 5 (CDMA+LTE)"),
    ("iPhone5,3", "iPhone 5c (GSM)"),
    ("iPhone5,4", "iPhone 5c (Global)"),
    ("iPhone6,1", "iPhone 5s (GSM)"),
    ("iPhone6,2", "iPhone 5s (Global)"),
    ("iPhone7,1", "iPhone 6 Plus"),
    ("iPhone7,2", "iPhone 6")
  ]

  const IPhones8To9: seq<Case> := [
    ("iPhone8,1", "iPhone 6s"),
    ("iPhone8,2", "iPhone 6s Plus"),
    ("iPhone8,4", "iPhone SE"),
    ("iPhone9,1", "iPhone 7"),
    ("iPhone9,2", "iPhone 7 Plus"),
    ("iPhone9,3", "iPhone 7 (no CDMA)"),
    ("iPhone9,4", "iPhone 7 Plus (no CDMA)")
  ]

  const IPhones10To11: seq<Case> := [
    ("iPhone10,1", "iPhone 8"),
    ("iPhone10,4", "iPhone 8 (no CDMA)"),
    ("iPhone10,2", "iPhone 8 Plus"),
    ("iPhone10,5", "iPhone 8 Plus (no CDMA)"),
    ("iPhone10,3", "iPhone X"),
    ("iPhone10,6", "iPhone X (no CDMA)"),
    ("iPhone11,2", "iPhone XS"),
    ("iPhone11,4", "iPhone XS Max (China)"),
    ("iPhone11,6", "iPhone XS Max"),
    ("iPhone11,8", "iPhone XR")
  ]

  const IPhones12To14: seq<Case> := [
    ("iPhone12,1", "iPhone 11"),
    ("iPhone12,3", "iPhone 11 Pro"),
    ("iPhone12,5", "iPhone 11 Pro Max"),
    ("iPhone12,8", "iPhone SE 2nd Gen"),
    ("iPhone13,1", "iPhone 12 mini"),
    ("iPhone13,2", "iPhone 12"),
    ("iPhone13,3", "iPhone 12 Pro"),
    ("iPhone13,4", "iPhone 12 Pro Max"),
    ("iPhone14,2", "iPhone 13 Pro"),
    ("iPhone14,3", "iPhone 13 Pro Max"),
    ("iPhone14,4", "iPhone 13 Mini"),
    ("iPhone14,5", "iPhone 13"),
    ("iPhone14,6", "iPhone SE 3rd Gen")
  ]

  /** Pod-class identifiers (DeviceIdentifier.swift:93-95). */
  const IPods: seq<Case> := [
    ("iPod5,1", "iPod 5th Gen"),
    ("iPod7,1", "iPod 6th Gen"),
    ("iPod9,1", "iPod 7th Gen")
  ]

  /** Tablet-class identifiers, generations 2 to 13 (DeviceIdentifier.swift:97-164). */
  const IPads: seq<Case> := IPads2To3 + IPads4To5 + IPads6To7 + IPads8 + IPads11To13

  const IPads2To3: seq<Case> := [
    ("iPad2,1", "iPad 2nd Gen (WiFi)"),
    ("iPad2,2", "iPad 2nd Gen (GSM)"),
    ("iPad2,3", "iPad 2nd Gen (CDMA)"),
    ("iPad2,4", "iPad 2nd Gen New Revision"),
    ("iPad2,5", "iPad mini 1st Gen (WiFi)"),
    ("iPad2,6", "iPad mini 1st Gen (GSM+LTE)"),
    ("iPad2,7", "iPad mini 1st Gen (CDMA+LTE)"),
    ("iPad3,1", "iPad 3rd Gen (WiFi)"),
    ("iPad3,2", "iPad 3rd Gen (CDMA)"),
    ("iPad3,3", "iPad 3rd Gen (GSM)"),
    ("iPad3,4", "iPad 4th Gen (WiFi)"),
    ("iPad3,5", "iPad 4th Gen (GSM+LTE)"),
    ("iPad3,6", "iPad 4th Gen (CDMA+LTE)")
  ]

  const IPads4To5: seq<Case> := [
    ("iPad4,1", "iPad Air 1st Gen (WiFi)"),
    ("iPad4,2", "iPad Air 1st Gen (GSM+CDMA)"),
    ("iPad4,3", "iPad Air 1st Gen (China)"),
    ("iPad4,4", "iPad mini 2nd Gen (WiFi)"),
    ("iPad4,5", "iPad mini 2nd Gen (WiFi+Cellular)"),
    ("iPad4,6", "iPad mini 2nd Gen (China)"),
    ("iPad4,7", "iPad mini 3rd Gen (WiFi)"),
    ("iPad4,8", "iPad mini 3rd Gen (WiFi+Cellular)"),
    ("iPad4,9", "iPad mini 3rd Gen (China)"),
    ("iPad5,1", "iPad mini 4th Gen (WiFi)"),
    ("iPad5,2", "iPad mini 4th Gen (WiFi+Cellular)"),
    ("iPad5,3", "iPad Air 2 (WiFi)"),
    ("iPad5,4", "iPad Air 2 (WiFi+Cellular)")
  ]

  const IPads6To7: seq<Case> := [
    ("iPad6,3", "iPad Pro 1st Gen (9.7\", WiFi)"),
    ("iPad6,4", "iPad Pro 1st Gen (9.7\", WiFi+Cellular)"),
    ("iPad6,7", "iPad Pro 1st Gen (12.9\", WiFi)"),
    ("iPad6,8", "iPad Pro 1st Gen (12.9\", WiFi+Cellular)"),
    ("iPad6,11", "iPad 5th Gen (WiFi)"),
    ("iPad6,12", "iPad 5th Gen (WiFi+Cellular)"),
    ("iPad7,1", "iPad Pro 2nd Gen (12.9\", WiFi)"),
    ("iPad7,2", "iPad Pro 2nd Gen (12.9\", WiFi+Cellular)"),
    ("iPad7,3", "iPad Pro 2nd Gen (10.5\", WiFi)"),
    ("iPad7,4", "iPad Pro 2nd Gen (10.5\", WiFi+Cellular)"),
    ("iPad7,5", "iPad 6th Gen (WiFi)"),
    ("iPad7,6", "iPad 6th Gen (WiFi+Cellular)"),
    ("iPad7,11", "iPad 7th Gen (WiFi)"),
    ("iPad7,12", "iPad 7th Gen (WiFi+Cellular)")
  ]

  const IPads8: seq<Case> := [
    ("iPad8,1", "iPad Pro 3rd Gen (11\", WiFi)"),
    ("iPad8,2", "iPad Pro 3rd Gen (11\", WiFi, 1TB)"),
    ("iPad8,3", "iPad Pro 3rd Gen (11\", WiFi+Cellular)"),
    ("iPad8,4", "iPad Pro 3rd Gen (11\", WiFi+Cellular, 1TB)"),
    ("iPad8,5", "iPad Pro 3rd Gen (12.9\", WiFi)"),
    ("iPad8,6", "iPad Pro 3rd Gen (12.9\", WiFi, 1TB)"),
    ("iPad8,7", "iPad Pro 3rd Gen (12.9\", WiFi+Cellular)"),
    ("iPad8,8", "iPad Pro 3rd Gen (12.9\", WiFi+Cellular, 1TB)"),
    ("iPad8,9", "iPad Pro 4th Gen (11\", WiFi)"),
    ("iPad8,10", "iPad Pro 4th Gen (11\", WiFi+Cellular)"),
    ("iPad8,11", "iPad Pro 4th Gen (12.9\", WiFi)"),
    ("iPad8,12", "iPad Pro 4th Gen (12.9\", WiFi+Cellular)")
  ]

  const IPads11To13: seq<Case> := [
    ("iPad11,1", "iPad mini 5th Gen (WiFi)"),
    ("iPad11,2", "iPad mini 5th Gen (WiFi+Cellular)"),
    ("iPad11,3", "iPad Air 3rd Gen (WiFi)"),
    ("iPad11,4", "iPad Air 3rd Gen (WiFi+Cellular)"),
    ("iPad11,6", "iPad 8th Gen (WiFi)"),
    ("iPad11,7", "iPad 8th Gen (WiFi+Cellular)"),
    ("iPad13,1", "iPad Air 4th Gen (WiFi)"),
    ("iPad13,2", "iPad Air 4th Gen (WiFi+Cellular)"),
    ("iPad13,4", "iPad Pro 3rd Gen (11\")"),
    ("iPad13,5", "iPad Pro 3rd Gen (11\")"),
    ("iPad13,6", "iPad Pro 3rd Gen (11\")"),
    ("iPad13,7", "iPad Pro 3rd Gen (11\")"),
    ("iPad13,8", "iPad Pro 5th Gen (12.9\")"),
    ("iPad13,9", "iPad Pro 5th Gen (12.9\")"),
    ("iPad13,10", "iPad Pro 5th Gen (12.9\")"),
    ("iPad13,11", "iPad Pro 5th Gen (12.9\")")
  ]

  /** Wearable-class identifiers, generations 1 to 6 (DeviceIdentifier.swift:166-191). */
  const Watches: seq<Case> := Watches1To3 + Watches4To5 + Watches6

  const Watches1To3: seq<Case> := [
    ("Watch1,1", "Apple Watch 1st Gen 38mm"),
    ("Watch1,2", "Apple Watch 1st Gen 42mm"),
    ("Watch2,6", "Apple Watch Series 1 38mm"),
    ("Watch2,7", "Apple Watch Series 1 42mm"),
    ("Watch2,3", "Apple Watch Series 2 38mm"),
    ("Watch2,4", "Apple Watch Series 2 42mm"),
    ("Watch3,1", "Apple Watch Series 3 38mm (GPS+Cellular)"),
    ("Watch3,2", "Apple Watch Series 3 42mm (GPS+Cellular)"),
    ("Watch3,3", "Apple Watch Series 3 38mm (GPS)"),
    ("Watch3,4", "Apple Watch Series 3 42mm (GPS)")
  ]

  const Watches4To5: seq<Case> := [
    ("Watch4,1", "Apple Watch Series 4 40mm (GPS)"),
    ("Watch4,2", "Apple Watch Series 4 44mm (GPS)"),
    ("Watch4,3", "Apple Watch Series 4 40mm (GPS+Cellular)"),
    ("Watch4,4", "Apple Watch Series 4 44mm (GPS+Cellular)"),
    ("Watch5,1", "Apple Watch Series 5 40mm (GPS)"),
    ("Watch5,2", "Apple Watch Series 5 44mm (GPS)"),
    ("Watch5,3", "Apple Watch Series 5 40mm (GPS+Cellular)"),
    ("Watch5,4", "Apple Watch Series 5 44mm (GPS+Cellular)"),
    ("Watch5,9", "Apple Watch SE 40mm (GPS)"),
    ("Watch5,10", "Apple Watch SE 44mm (GPS)"),
    ("Watch5,11", "Apple Watch SE 40mm (GPS+Cellular)"),
    ("Watch5,12", "Apple Watch SE 44mm (GPS+Cellular)")
  ]

  const Watches6: seq<Case> := [
    ("Watch6,1", "Apple Watch Series 6 40mm (GPS)"),
    ("Watch6,2", "Apple Watch Series 6 44mm (GPS)"),
    ("Watch6,3", "Apple Watch Series 6 40mm (GPS+Cellular)"),
    ("Watch6,4", "Apple Watch Series 6 44mm (GPS+Cellular)")
  ]

  /** All cases of the switch, in the order the source lists them. */
  const Cases: seq<Case> := Simulators + IPhones + IPods + IPads + Watches

  /** `id` is the label of some case. */
  predicate IsKey(cases: seq<Case>, id: string) {
    exists i :: 0 <= i < |cases| && cases[i].0 == id
  }

  /**
   * The switch: the name of the first case whose label equals `id` exactly,
   * or `id` itself when no label does (the `default` branch).
   */
  function Lookup(cases: seq<Case>, id: string): (r: string)
    ensures !IsKey(cases, id) ==> r == id
    ensures IsKey(cases, id) ==> exists i :: 0 <= i < |cases| && cases[i].0 == id && cases[i].1 == r
  {
    if |cases| == 0 then id
    else if cases[0].0 == id then cases[0].1
    else Lookup(cases[1..], id)
  }

  /** The display name for a raw hardware identifier. */
  function ModelName(id: string): (r: string)
    ensures !IsKey(Cases, id) ==> r == id
    ensures r != id ==> IsKey(Cases, id)
    ensures IsKey(Cases, id) ==> exists i :: 0 <= i < |Cases| && Cases[i].0 == id && Cases[i].1 == r
  {
    Lookup(Cases, id)
  }

  // ---------------------------------------------------------------------
  // The switch semantics in general

  /** No two cases share a label. */
  predicate KeysDistinct(cases: seq<Case>) {
    forall i, j :: 0 <= i < j < |cases| ==> cases[i].0 != cases[j].0
  }

  /** Every case returns a non-empty name. */
  predicate NamesNonEmpty(cases: seq<Case>) {
    forall i :: 0 <= i < |cases| ==> cases[i].1 != ""
  }

  /** A switch returns the name of the FIRST case whose label matches. */
  lemma {:induction false} LookupFirstMatch(cases: seq<Case>, i: nat)
    requires i < |cases|
    requires forall j :: 0 <= j < i ==> cases[j].0 != cases[i].0
    ensures Lookup(cases, cases[i].0) == cases[i].1
  {
    if i > 0 {
      LookupFirstMatch(cases[1..], i - 1);
    }
  }

  /** With distinct labels, every case is reached by its own label. */
  lemma LookupHit(cases: seq<Case>, c: Case)
    requires KeysDistinct(cases) && c in cases
    ensures Lookup(cases, c.0) == c.1
  {
    var i :| 0 <= i < |cases| && cases[i] == c;
    LookupFirstMatch(cases, i);
  }

  /**
   * With distinct labels the order of the cases does not matter: any
   * rearrangement of them gives the same switch.
   */
  lemma LookupOrderIrrelevant(a: seq<Case>, b: seq<Case>, id: string)
    requires KeysDistinct(a) && KeysDistinct(b)
    requires multiset(a) == multiset(b)
    ensures Lookup(a, id) == Lookup(b, id)
  {
    if IsKey(a, id) {
      var i :| 0 <= i < |a| && a[i].0 == id;
      assert a[i] in multiset(b);
      LookupHit(a, a[i]);
      LookupHit(b, a[i]);
    } else {
      forall j | 0 <= j < |b| ensures b[j].0 != id {
        assert b[j] in multiset(a);
      }
    }
  }

  /** The `default` of the switch never produces an empty name from a non-empty one. */
  lemma LookupEmptyIff(cases: seq<Case>, id: string)
    requires NamesNonEmpty(cases)
    requires !IsKey(cases, "")
    ensures Lookup(cases, id) == "" <==> id == ""
  {
  }

  // ---------------------------------------------------------------------
  // Telling labels apart by the character at one position

  /** No two cases share a label and no case returns an empty name. */
  predicate WellFormed(cases: seq<Case>) {
    KeysDistinct(cases) && NamesNonEmpty(cases)
  }

  /** Every label is longer than `pos` and has one of `cs` at position `pos`. */
  predicate CharsAt(cases: seq<Case>, pos: nat, cs: set<char>) {
    forall i :: 0 <= i < |cases| ==> pos < |cases[i].0| && cases[i].0[pos] in cs
  }

  /**
   * Two well-formed blocks of cases whose labels differ at position `pos`
   * join into a well-formed block.
   */
  lemma Join(a: seq<Case>, b: seq<Case>, pos: nat, ca: set<char>, cb: set<char>)
    requires WellFormed(a) && WellFormed(b)
    requires CharsAt(a, pos, ca) && CharsAt(b, pos, cb) && ca !! cb
    ensures WellFormed(a + b)
  {
    forall i, j | 0 <= i < j < |a + b| ensures (a + b)[i].0 != (a + b)[j].0 {
      if i < |a| <= j {
        assert (a + b)[i].0[pos] in ca;
        assert (a + b)[j].0[pos] in cb;
      }
    }
    forall i | 0 <= i < |a + b| ensures (a + b)[i].1 != "" {
      if i >= |a| {
        assert (a + b)[i] == b[i - |a|];
      }
    }
  }

  /** The characters at `pos` of a joined block are those of its two parts. */
  lemma CharsJoin(a: seq<Case>, b: seq<Case>, pos: nat, ca: set<char>, cb: set<char>)
    requires CharsAt(a, pos, ca) && CharsAt(b, pos, cb)
    ensures CharsAt(a + b, pos, ca + cb)
  {
    forall i | 0 <= i < |a + b| ensures pos < |(a + b)[i].0| && (a + b)[i].0[pos] in ca + cb {
      if i >= |a| {
        assert (a + b)[i] == b[i - |a|];
      }
    }
  }

  /** A string that differs at `pos` from every label is not a label. */
  lemma NotKeyByCharAt(cases: seq<Case>, pos: nat, cs: set<char>, id: string)
    requires CharsAt(cases, pos, cs)
    requires pos >= |id| || id[pos] !in cs
    ensures !IsKey(cases, id)
  {
  }

  // ---------------------------------------------------------------------
  // The table itself

  lemma SimulatorsWellFormed()
    ensures WellFormed(Simulators) && CharsAt(Simulators, 2, {'8', '6', 'm'})
  {
  }

  lemma IPhones4To7KeysDistinct()
    ensures KeysDistinct(IPhones4To7)
  {
  }

  lemma IPhones4To7Labels()
    ensures NamesNonEmpty(IPhones4To7) && CharsAt(IPhones4To7, 2, {'h'})
    ensures CharsAt(IPhones4To7, 6, {'4', '5', '6', '7'}) && CharsAt(IPhones4To7, 7, {','})
  {
  }

  lemma IPhones8To9KeysDistinct()
    ensures KeysDistinct(IPhones8To9)
  {
  }

  lemma IPhones8To9Labels()
    ensures NamesNonEmpty(IPhones8To9) && CharsAt(IPhones8To9, 2, {'h'})
    ensures CharsAt(IPhones8To9, 6, {'8', '9'}) && CharsAt(IPhones8To9, 7, {','})
  {
  }

  lemma IPhones10To11KeysDistinct()
    ensures KeysDistinct(IPhones10To11)
  {
  }

  lemma IPhones10To11Labels()
    ensures NamesNonEmpty(IPhones10To11) && CharsAt(IPhones10To11, 2, {'h'})
    ensures CharsAt(IPhones10To11, 6, {'1'}) && CharsAt(IPhones10To11, 7, {'0', '1'})
  {
  }

  lemma IPhones12To14KeysDistinct()
    ensures KeysDistinct(IPhones12To14)
  {
  }

  lemma IPhones12To14Labels()
    ensures NamesNonEmpty(IPhones12To14) && CharsAt(IPhones12To14, 2, {'h'})
    ensures CharsAt(IPhones12To14, 7, {'2', '3', '4'})
  {
  }

  /**
   * Phone labels: the generation's first digit (position 6) separates
   * "iPhone4," to "iPhone9," from "iPhone1x,"; position 7 (a comma or the
   * second digit) separates the rest.
   */
  lemma IPhonesWellFormed()
    ensures WellFormed(IPhones) && CharsAt(IPhones, 2, {'h'})
  {
    IPhones4To7KeysDistinct();
    IPhones4To7Labels();
    IPhones8To9KeysDistinct();
    IPhones8To9Labels();
    IPhones10To11KeysDistinct();
    IPhones10To11Labels();
    IPhones12To14KeysDistinct();
    IPhones12To14Labels();
    var a, b, c, d := IPhones4To7, IPhones8To9, IPhones10To11, IPhones12To14;
    Join(a, b, 6, {'4', '5', '6', '7'}, {'8', '9'});
    CharsJoin(a, b, 6, {'4', '5', '6', '7'}, {'8', '9'});
    Join(a + b, c, 6, {'4', '5', '6', '7', '8', '9'}, {'1'});
    CharsJoin(a, b, 7, {','}, {','});
    CharsJoin(a + b, c, 7, {','}, {'0', '1'});
    Join(a + b + c, d, 7, {',', '0', '1'}, {'2', '3', '4'});
    CharsJoin(a, b, 2, {'h'}, {'h'});
    CharsJoin(a + b, c, 2, {'h'}, {'h'});
    CharsJoin(a + b + c, d, 2, {'h'}, {'h'});
  }

  lemma IPodsWellFormed()
    ensures WellFormed(IPods) && CharsAt(IPods, 2, {'o'})
  {
  }

  lemma IPads2To3KeysDistinct()
    ensures KeysDistinct(IPads2To3)
  {
  }

  lemma IPads2To3Labels()
    ensures NamesNonEmpty(IPads2To3) && CharsAt(IPads2To3, 2, {'a'}) && CharsAt(IPads2To3, 4, {'2', '3'})
  {
  }

  lemma IPads4To5KeysDistinct()
    ensures KeysDistinct(IPads4To5)
  {
  }

  lemma IPads4To5Labels()
    ensures NamesNonEmpty(IPads4To5) && CharsAt(IPads4To5, 2, {'a'}) && CharsAt(IPads4To5, 4, {'4', '5'})
  {
  }

  lemma IPads6To7KeysDistinct()
    ensures KeysDistinct(IPads6To7)
  {
  }

  lemma IPads6To7Labels()
    ensures NamesNonEmpty(IPads6To7) && CharsAt(IPads6To7, 2, {'a'}) && CharsAt(IPads6To7, 4, {'6', '7'})
  {
  }

  lemma IPads8KeysDistinct()
    ensures KeysDistinct(IPads8)
  {
  }

  lemma IPads8Labels()
    ensures NamesNonEmpty(IPads8) && CharsAt(IPads8, 2, {'a'}) && CharsAt(IPads8, 4, {'8'})
  {
  }

  lemma IPads11To13KeysDistinct()
    ensures KeysDistinct(IPads11To13)
  {
  }

  lemma IPads11To13Labels()
    ensures NamesNonEmpty(IPads11To13) && CharsAt(IPads11To13, 2, {'a'}) && CharsAt(IPads11To13, 4, {'1'})
  {
  }

  /** Tablet labels: the generation's first digit (position 4) separates the blocks. */
  lemma IPadsWellFormed()
    ensures WellFormed(IPads) && CharsAt(IPads, 2, {'a'})
  {
    IPads2To3KeysDistinct();
    IPads2To3Labels();
    IPads4To5KeysDistinct();
    IPads4To5Labels();
    IPads6To7KeysDistinct();
    IPads6To7Labels();
    IPads8KeysDistinct();
    IPads8Labels();
    IPads11To13KeysDistinct();
    IPads11To13Labels();
    var a, b, c, d, e := IPads2To3, IPads4To5, IPads6To7, IPads8, IPads11To13;
    Join(a, b, 4, {'2', '3'}, {'4', '5'});
    CharsJoin(a, b, 4, {'2', '3'}, {'4', '5'});
    Join(a + b, c, 4, {'2', '3', '4', '5'}, {'6', '7'});
    CharsJoin(a + b, c, 4, {'2', '3', '4', '5'}, {'6', '7'});
    Join(a + b + c, d, 4, {'2', '3', '4', '5', '6', '7'}, {'8'});
    CharsJoin(a + b + c, d, 4, {'2', '3', '4', '5', '6', '7'}, {'8'});
    Join(a + b + c + d, e, 4, {'2', '3', '4', '5', '6', '7', '8'}, {'1'});
    CharsJoin(a, b, 2, {'a'}, {'a'});
    CharsJoin(a + b, c, 2, {'a'}, {'a'});
    CharsJoin(a + b + c, d, 2, {'a'}, {'a'});
    CharsJoin(a + b + c + d, e, 2, {'a'}, {'a'});
  }

  lemma Watches1To3KeysDistinct()
    ensures KeysDistinct(Watches1To3)
  {
  }

  lemma Watches1To3Labels()
    ensures NamesNonEmpty(Watches1To3) && CharsAt(Watches1To3, 2, {'t'}) && CharsAt(Watches1To3, 5, {'1', '2', '3'})
  {
  }

  lemma Watches4To5KeysDistinct()
    ensures KeysDistinct(Watches4To5)
  {
  }

  lemma Watches4To5Labels()
    ensures NamesNonEmpty(Watches4To5) && CharsAt(Watches4To5, 2, {'t'}) && CharsAt(Watches4To5, 5, {'4', '5'})
  {
  }

  lemma Watches6KeysDistinct()
    ensures KeysDistinct(Watches6)
  {
  }

  lemma Watches6Labels()
    ensures NamesNonEmpty(Watches6) && CharsAt(Watches6, 2, {'t'}) && CharsAt(Watches6, 5, {'6'})
  {
  }

  /** Wearable labels: the generation digit (position 5) separates the blocks. */
  lemma WatchesWellFormed()
    ensures WellFormed(Watches) && CharsAt(Watches, 2, {'t'})
  {
    Watches1To3KeysDistinct();
    Watches1To3Labels();
    Watches4To5KeysDistinct();
    Watches4To5Labels();
    Watches6KeysDistinct();
    Watches6Labels();
    var a, b, c := Watches1To3, Watches4To5, Watches6;
    Join(a, b, 5, {'1', '2', '3'}, {'4', '5'});
    CharsJoin(a, b, 5, {'1', '2', '3'}, {'4', '5'});
    Join(a + b, c, 5, {'1', '2', '3', '4', '5'}, {'6'});
    CharsJoin(a, b, 2, {'t'}, {'t'});
    CharsJoin(a + b, c, 2, {'t'}, {'t'});
  }

  /** The characters found at position 2 of the labels. */
  const ThirdChars: set<char> := {'8', '6', 'm', 'h', 'o', 'a', 't'}

  /**
   * The case labels are pairwise distinct and every name is non-empty: the
   * switch defines a function and the order of its cases is immaterial.
   * The families are told apart by the third character of their labels.
   */
  lemma CasesWellFormed()
    ensures WellFormed(Cases) && CharsAt(Cases, 2, ThirdChars)
  {
    SimulatorsWellFormed();
    IPhonesWellFormed();
    IPodsWellFormed();
    IPadsWellFormed();
    WatchesWellFormed();
    var s, p, o, a, w := Simulators, IPhones, IPods, IPads, Watches;
    Join(s, p, 2, {'8', '6', 'm'}, {'h'});
    CharsJoin(s, p, 2, {'8', '6', 'm'}, {'h'});
    Join(s + p, o, 2, {'8', '6', 'm', 'h'}, {'o'});
    CharsJoin(s + p, o, 2, {'8', '6', 'm', 'h'}, {'o'});
    Join(s + p + o, a, 2, {'8', '6', 'm', 'h', 'o'}, {'a'});
    CharsJoin(s + p + o, a, 2, {'8', '6', 'm', 'h', 'o'}, {'a'});
    Join(s + p + o + a, w, 2, {'8', '6', 'm', 'h', 'o', 'a'}, {'t'});
    CharsJoin(s + p + o + a, w, 2, {'8', '6', 'm', 'h', 'o', 'a'}, {'t'});
  }

  // ---------------------------------------------------------------------
  // What the table promises

  /** Every case of the table is resolved to exactly its own name. */
  lemma ModelNameOfCase(c: Case)
    requires c in Cases
    ensures ModelName(c.0) == c.1
  {
    CasesWellFormed();
    LookupHit(Cases, c);
  }

  /** An identifier that matches no label is returned unchanged. */
  lemma ModelNameDefault(id: string)
    requires !IsKey(Cases, id)
    ensures ModelName(id) == id
  {
  }

  /** The name is empty exactly when the identifier is. */
  lemma ModelNameEmptyIff(id: string)
    ensures ModelName(id) == "" <==> id == ""
  {
    CasesWellFormed();
    NotKeyByCharAt(Cases, 2, ThirdChars, "");
    LookupEmptyIff(Cases, id);
  }

  /**
   * Any arrangement of the same cases (with distinct labels) resolves every
   * identifier as the source's order does.
   */
  lemma ModelNameOrderIrrelevant(cases: seq<Case>, id: string)
    requires KeysDistinct(cases) && multiset(cases) == multiset(Cases)
    ensures Lookup(cases, id) == ModelName(id)
  {
    CasesWellFormed();
    LookupOrderIrrelevant(cases, Cases, id);
  }

  /** Known identifiers resolve to their literal names. */
  lemma ModelNameKnownExamples()
    ensures ModelName("i386") == "iOS Simulator 32-bit"
    ensures ModelName("iPhone8,1") == "iPhone 6s"
    ensures ModelName("iPhone13,2") == "iPhone 12"
    ensures ModelName("Watch3,2") == "Apple Watch Series 3 42mm (GPS+Cellular)"
  {
    ModelNameOfCase(("i386", "iOS Simulator 32-bit"));
    assert ("iPhone8,1", "iPhone 6s") in IPhones8To9;
    ModelNameOfCase(("iPhone8,1", "iPhone 6s"));
    assert ("iPhone13,2", "iPhone 12") in IPhones12To14;
    ModelNameOfCase(("iPhone13,2", "iPhone 12"));
    assert ("Watch3,2", "Apple Watch Series 3 42mm (GPS+Cellular)") in Watches1To3;
    ModelNameOfCase(("Watch3,2", "Apple Watch Series 3 42mm (GPS+Cellular)"));
  }

  /**
   * Unknown identifiers pass through; matching is exact, with no case
   * folding and no trimming.
   */
  lemma ModelNameUnknownExamples()
    ensures ModelName("") == ""
    ensures ModelName("UnknownDevice99,9") == "UnknownDevice99,9"
    ensures ModelName("IPHONE8,1") == "IPHONE8,1"
    ensures ModelName(" iPhone8,1") == " iPhone8,1"
  {
    CasesWellFormed();
    NotKeyByCharAt(Cases, 2, ThirdChars, "");
    NotKeyByCharAt(Cases, 2, ThirdChars, "UnknownDevice99,9");
    NotKeyByCharAt(Cases, 2, ThirdChars, "IPHONE8,1");
    NotKeyByCharAt(Cases, 2, ThirdChars, " iPhone8,1");
  }

  /** Four tablet identifiers share the name of the 11-inch third-generation Pro. */
  lemma ModelNameSharedEleven()
    ensures ModelName("iPad13,4") == ModelName("iPad13,5") == ModelName("iPad13,6")
         == ModelName("iPad13,7") == "iPad Pro 3rd Gen (11\")"
  {
    var name := "iPad Pro 3rd Gen (11\")";
    assert ("iPad13,4", name) in IPads11To13 && ("iPad13,5", name) in IPads11To13;
    assert ("iPad13,6", name) in IPads11To13 && ("iPad13,7", name) in IPads11To13;
    ModelNameOfCase(("iPad13,4", name));
    ModelNameOfCase(("iPad13,5", name));
    ModelNameOfCase(("iPad13,6", name));
    ModelNameOfCase(("iPad13,7", name));
  }

  /** Four tablet identifiers share the name of the 12.9-inch fifth-generation Pro. */
  lemma ModelNameSharedTwelve()
    ensures ModelName("iPad13,8") == ModelName("iPad13,9") == ModelName("iPad13,10")
         == ModelName("iPad13,11") == "iPad Pro 5th Gen (12.9\")"
  {
    var name := "iPad Pro 5th Gen (12.9\")";
    assert ("iPad13,8", name) in IPads11To13 && ("iPad13,9", name) in IPads11To13;
    assert ("iPad13,10", name) in IPads11To13 && ("iPad13,11", name) in IPads11To13;
    ModelNameOfCase(("iPad13,8", name));
    ModelNameOfCase(("iPad13,9", name));
    ModelNameOfCase(("iPad13,10", name));
    ModelNameOfCase(("iPad13,11", name));
  }

  /** The table is not injective: distinct identifiers share a name. */
  lemma ModelNameNotInjective()
    ensures exists a, b :: a != b && ModelName(a) == ModelName(b)
  {
    ModelNameSharedEleven();
    assert "iPad13,4" != "iPad13,5";
  }
}
