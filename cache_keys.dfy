/**
 * How `WP_Object_Cache::key()` turns an id and a group into the string that
 * addresses both the local map and memcached.
 */
module CacheKeys {
  import opened PhpStrings

  /** An empty group name stands for the group `default`. */
  function DefaultGroup(g: string): (r: string)
    ensures !IsEmptyString(r)
    ensures IsEmptyString(g) ==> r == "default"
    ensures !IsEmptyString(g) ==> r == g
  {
    if IsEmptyString(g) then "default" else g
  }

  /** What `key()` reads from the cache object: the salt, the two prefixes and the global groups. */
  datatype KeyConfig = KeyConfig(salt: string, globalPrefix: string, blogPrefix: string, globalGroups: seq<string>)

  /** Global groups are shared by every blog; every other group is namespaced by the blog prefix. */
  function Prefix(kc: KeyConfig, group: string): (r: string)
    ensures group in kc.globalGroups ==> r == kc.globalPrefix
    ensures group !in kc.globalGroups ==> r == kc.blogPrefix
  {
    if group in kc.globalGroups then kc.globalPrefix else kc.blogPrefix
  }

  /**
   * `salt . prefix . group . ":" . id` with every whitespace character removed:
   * the separator always survives, and the key is never longer than its parts.
   */
  function Key(kc: KeyConfig, id: string, group: string): (r: string)
    ensures ':' in r
    ensures |r| <= |kc.salt| + |Prefix(kc, DefaultGroup(group))| + |DefaultGroup(group)| + 1 + |id|
  {
    var g := DefaultGroup(group);
    var head := kc.salt + Prefix(kc, g) + g;
    assert (head + ":" + id)[|head|] == ':';
    StripKeepsChars(head + ":" + id, ':');
    StripWhitespace(kc.salt + Prefix(kc, g) + g + ":" + id)
  }

  /** A key never contains whitespace, whatever the id, the group and the prefixes hold. */
  lemma KeyHasNoWhitespace(kc: KeyConfig, id: string, group: string)
    ensures NoWhitespace(Key(kc, id, group))
  {
    var g := DefaultGroup(group);
    StripLeavesNoWhitespace(kc.salt + Prefix(kc, g) + g + ":" + id);
  }

  /** The key read piece by piece: each part stripped on its own, the separator kept. */
  lemma KeyParts(kc: KeyConfig, id: string, group: string)
    ensures var g := DefaultGroup(group);
      Key(kc, id, group) ==
        StripWhitespace(kc.salt)
        + StripWhitespace(if g in kc.globalGroups then kc.globalPrefix else kc.blogPrefix)
        + StripWhitespace(g) + ":" + StripWhitespace(id)
  {
    var g := DefaultGroup(group);
    var p := Prefix(kc, g);
    StripAppend(kc.salt + p + g + ":", id);
    StripAppend(kc.salt + p + g, ":");
    StripAppend(kc.salt + p, g);
    StripAppend(kc.salt, p);
    assert StripWhitespace(":") == ":";
  }

  /** The empty group and "0" address the same entries as `default`. */
  lemma KeyOfEmptyGroup(kc: KeyConfig, id: string, group: string)
    requires IsEmptyString(group)
    ensures Key(kc, id, group) == Key(kc, id, "default")
  {
  }

  /** A global group's key does not depend on the blog prefix: every blog sees the same entry. */
  lemma GlobalKeySharedByBlogs(kc: KeyConfig, otherBlogPrefix: string, id: string, group: string)
    requires DefaultGroup(group) in kc.globalGroups
    ensures Key(kc, id, group) == Key(kc.(blogPrefix := otherBlogPrefix), id, group)
  {
  }

  /**
   * A non-global group's key separates blogs: two blog prefixes give the same
   * key for the same id and group exactly when they agree once whitespace is removed.
   */
  lemma BlogKeysSeparate(kc: KeyConfig, otherBlogPrefix: string, id: string, group: string)
    requires DefaultGroup(group) !in kc.globalGroups
    ensures Key(kc, id, group) == Key(kc.(blogPrefix := otherBlogPrefix), id, group)
        <==> StripWhitespace(kc.blogPrefix) == StripWhitespace(otherBlogPrefix)
  {
    var kc2 := kc.(blogPrefix := otherBlogPrefix);
    KeyAroundPrefix(kc, id, group);
    KeyAroundPrefix(kc2, id, group);
    var a := StripWhitespace(kc.salt);
    var t := StripWhitespace(DefaultGroup(group) + ":" + id);
    if Key(kc, id, group) == Key(kc2, id, group) {
      CancelAround(a, StripWhitespace(kc.blogPrefix), StripWhitespace(otherBlogPrefix), t);
    }
  }

  /** With the group fixed, two ids share a key exactly when they agree once whitespace is removed. */
  lemma KeySeparatesIds(kc: KeyConfig, id1: string, id2: string, group: string)
    ensures Key(kc, id1, group) == Key(kc, id2, group) <==> StripWhitespace(id1) == StripWhitespace(id2)
  {
    var g := DefaultGroup(group);
    var front := kc.salt + Prefix(kc, g) + g + ":";
    StripAppend(front, id1);
    StripAppend(front, id2);
    if Key(kc, id1, group) == Key(kc, id2, group) {
      CancelAround(StripWhitespace(front), StripWhitespace(id1), StripWhitespace(id2), []);
    }
  }

  /** The key as the stripped salt, the stripped prefix and the stripped `group:id`. */
  lemma KeyAroundPrefix(kc: KeyConfig, id: string, group: string)
    ensures var g := DefaultGroup(group);
      Key(kc, id, group) ==
        StripWhitespace(kc.salt) + StripWhitespace(Prefix(kc, g)) + StripWhitespace(g + ":" + id)
  {
    var g := DefaultGroup(group);
    var p := Prefix(kc, g);
    var t := g + ":" + id;
    assert kc.salt + p + g + ":" + id == (kc.salt + p) + t;
    StripAppend(kc.salt + p, t);
    StripAppend(kc.salt, p);
  }

  /**
   * The id and the group are joined with ':' and nothing escapes it, so an
   * id holding ':' can meet a different group's entry: `("b:c", "a")` and
   * `("c", "a:b")` share a key whenever neither group is global.
   */
  lemma ColonIdsCollide(kc: KeyConfig)
    requires "a" !in kc.globalGroups && "a:b" !in kc.globalGroups
    ensures Key(kc, "b:c", "a") == Key(kc, "c", "a:b")
  {
    assert kc.salt + kc.blogPrefix + "a" + ":" + "b:c" == kc.salt + kc.blogPrefix + "a:b" + ":" + "c";
  }

  lemma CancelAround(a: string, p: string, q: string, r: string)
    requires a + p + r == a + q + r
    ensures p == q
  {
    assert |p| == |q|;
    assert p == (a + p + r)[|a|..|a| + |p|];
    assert q == (a + q + r)[|a|..|a| + |q|];
  }
}
