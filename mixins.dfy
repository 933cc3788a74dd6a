/** The naming and identity shared by the binary-sensor and button entities
    (custom_components/coolmaster_ng/mixins.py): an entity of a device is
    identified by the device's uid and the entity's title. */
module Mixins {
  import opened Common
  import opened Models

  predicate IsUpper(c: char) { 'A' <= c <= 'Z' }

  /** `str.lower` on one character (ASCII letters only). */
  function LowerChar(c: char): (r: char)
    ensures !IsUpper(r)
    ensures !IsUpper(c) ==> r == c
  {
    if IsUpper(c) then (c as int - 'A' as int + 'a' as int) as char else c
  }

  /** `str.lower`. */
  function Lower(s: string): (r: string)
    ensures |r| == |s|
    ensures forall i :: 0 <= i < |s| ==> r[i] == LowerChar(s[i])
  {
    if s == [] then [] else [LowerChar(s[0])] + Lower(s[1..])
  }

  /** `str.replace` of one character by another. */
  function ReplaceChar(s: string, from: char, to: char): (r: string)
    ensures |r| == |s|
    ensures forall i :: 0 <= i < |s| ==> r[i] == if s[i] == from then to else s[i]
  {
    if s == [] then []
    else [if s[0] == from then to else s[0]] + ReplaceChar(s[1..], from, to)
  }

  /** `title.lower().replace(" ", "_")`: the title part of a unique id. */
  function Slug(title: string): (r: string)
  {
    ReplaceChar(Lower(title), ' ', '_')
  }

  /** The slug keeps the title's length and holds no space and no upper-case letter. */
  lemma SlugClean(title: string)
    ensures |Slug(title)| == |title|
    ensures ' ' !in Slug(title)
    ensures forall i :: 0 <= i < |Slug(title)| ==> !IsUpper(Slug(title)[i])
  {
    var lowered := Lower(title);
    forall i | 0 <= i < |Slug(title)|
      ensures Slug(title)[i] != ' ' && !IsUpper(Slug(title)[i])
    {
      assert !IsUpper(lowered[i]);
    }
  }

  /** `unique_id`: `str(uid) + "-" + slug`. */
  function UniqueId(uid: string, title: string): string
  {
    uid + "-" + Slug(title)
  }

  /** Two entities of the same device get the same unique id exactly when
      their titles give the same slug. */
  lemma UniqueIdSameDevice(uid: string, title1: string, title2: string)
    ensures UniqueId(uid, title1) == UniqueId(uid, title2) <==> Slug(title1) == Slug(title2)
  {
    var prefix := uid + "-";
    if UniqueId(uid, title1) == UniqueId(uid, title2) {
      assert Slug(title1) == UniqueId(uid, title1)[|prefix|..];
      assert Slug(title2) == UniqueId(uid, title2)[|prefix|..];
    }
  }

  predicate EndsWith(s: string, suffix: string)
  {
    |suffix| <= |s| && s[|s| - |suffix|..] == suffix
  }

  /** A unique id ends with a dash and its title's slug. */
  lemma UniqueIdEndsWithSlug(uid: string, title: string)
    ensures EndsWith(UniqueId(uid, title), "-" + Slug(title))
  {
    assert UniqueId(uid, title) == uid + ("-" + Slug(title));
  }

  /** Two suffixes of one string: the shorter is a suffix of the longer. */
  lemma SuffixOfSuffix(s: string, a: string, b: string)
    requires EndsWith(s, a) && EndsWith(s, b) && |a| <= |b|
    ensures EndsWith(b, a)
  {
    assert b[|b| - |a|..] == s[|s| - |a|..];
  }

  /** Entities whose dash-and-slug endings are not suffixes of one another
      never share a unique id, whatever their devices' uids. */
  lemma UniqueIdsOfUnrelatedTitles(uid1: string, title1: string, uid2: string, title2: string)
    requires !EndsWith("-" + Slug(title1), "-" + Slug(title2))
    requires !EndsWith("-" + Slug(title2), "-" + Slug(title1))
    ensures UniqueId(uid1, title1) != UniqueId(uid2, title2)
  {
    UniqueIdEndsWithSlug(uid1, title1);
    UniqueIdEndsWithSlug(uid2, title2);
    if UniqueId(uid1, title1) == UniqueId(uid2, title2) {
      var id, e1, e2 := UniqueId(uid1, title1), "-" + Slug(title1), "-" + Slug(title2);
      if |e1| <= |e2| {
        SuffixOfSuffix(id, e1, e2);
      } else {
        SuffixOfSuffix(id, e2, e1);
      }
    }
  }

  /** Entities with the same title share a unique id exactly when their
      devices share a uid. */
  lemma UniqueIdsOfSameTitle(uid1: string, uid2: string, title: string)
    ensures UniqueId(uid1, title) == UniqueId(uid2, title) <==> uid1 == uid2
  {
    var e := "-" + Slug(title);
    assert UniqueId(uid1, title) == uid1 + e && UniqueId(uid2, title) == uid2 + e;
    if uid1 + e == uid2 + e {
      assert uid1 == (uid1 + e)[..|uid1|];
    }
  }

  /** The slug of a concatenation is the concatenation of the slugs. */
  lemma SlugAppend(a: string, b: string)
    ensures Slug(a + b) == Slug(a) + Slug(b)
  {
  }

  /** A title without spaces and upper-case letters is its own slug. */
  lemma SlugOfPlain(s: string)
    requires forall i :: 0 <= i < |s| ==> !IsUpper(s[i]) && s[i] != ' '
    ensures Slug(s) == s
  {
  }

  /** A capitalised word's slug is the word with its first letter lowered. */
  lemma SlugOfCapitalised(first: char, rest: string)
    requires IsUpper(first)
    requires forall i :: 0 <= i < |rest| ==> !IsUpper(rest[i]) && rest[i] != ' '
    ensures Slug([first] + rest) == [LowerChar(first)] + rest
  {
    SlugAppend([first], rest);
    SlugOfPlain(rest);
  }

  lemma FilterSlug() ensures Slug("Filter") == "filter"
  {
    SlugOfCapitalised('F', "ilter");
    assert "Filter" == ['F'] + "ilter";
  }

  lemma DemandSlug() ensures Slug("Demand") == "demand"
  {
    SlugOfCapitalised('D', "emand");
    assert "Demand" == ['D'] + "emand";
  }

  lemma ErrorSlug() ensures Slug("Error") == "error"
  {
    SlugOfCapitalised('E', "rror");
    assert "Error" == ['E'] + "rror";
  }

  lemma FilterResetSlug() ensures Slug("Filter reset") == "filter_reset"
  {
    var filter, space, reset := "Filter", " ", "reset";
    FilterSlug();
    assert Slug(space) == "_";
    SlugAppend(filter, space);
    assert Slug(filter + space) == "filter_";
    SlugOfPlain(reset);
    SlugAppend(filter + space, reset);
    assert Slug(filter + space + reset) == "filter_" + "reset";
    assert filter + space + reset == "Filter reset";
    assert "filter_" + "reset" == "filter_reset";
  }

  /** The titles used by the integration's utility entities give the slugs
      filter, demand, error and filter_reset, which are pairwise distinct. */
  lemma TitleSlugs()
    ensures Slug("Filter") == "filter"
    ensures Slug("Demand") == "demand"
    ensures Slug("Error") == "error"
    ensures Slug("Filter reset") == "filter_reset"
  {
    FilterSlug();
    DemandSlug();
    ErrorSlug();
    FilterResetSlug();
  }

  /** `friendly_name or str(uid)`: an absent or empty friendly name falls back to the uid. */
  function DeviceName(d: Device): string
  {
    match d.friendlyName
    case Some(n) => if n != "" then n else d.uid
    case None => d.uid
  }

  /** `name`: the device's name, a space, and the entity's title. */
  function Name(d: Device, title: string): string
  {
    DeviceName(d) + " " + title
  }

  /** The name always ends with a space and the title; what comes before is
      the friendly name when it is non-empty and the uid otherwise. */
  lemma NameShape(d: Device, title: string)
    ensures |Name(d, title)| > |title|
    ensures Name(d, title)[|Name(d, title)| - |title| - 1..] == " " + title
    ensures d.friendlyName.Some? && d.friendlyName.value != "" ==>
      Name(d, title)[..|Name(d, title)| - |title| - 1] == d.friendlyName.value
    ensures !(d.friendlyName.Some? && d.friendlyName.value != "") ==>
      Name(d, title)[..|Name(d, title)| - |title| - 1] == d.uid
  {
    var n := Name(d, title);
    assert n[..|n| - |title| - 1] == DeviceName(d);
    assert n[|n| - |title| - 1..] == " " + title;
  }

  /** `device_info`: the device is identified by its uid within the
      integration's domain and hangs off its gateway's registry entry. */
  function UtilityDeviceInfo(d: Device): (info: DeviceInfo)
    ensures info.identifiers == {(Domain, d.uid)}
    ensures info.manufacturer == d.brandName
    ensures info.name.None?
    ensures info.viaDevice == (Domain, d.gatewaySerial)
  {
    DeviceInfo({(Domain, d.uid)}, d.brandName, None, (Domain, d.gatewaySerial))
  }
}
