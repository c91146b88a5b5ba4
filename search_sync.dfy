/**
 * `beforeSyncWithSearch`: the search document is the plugin's one with
 * `slug` taken from the page and `meta` rebuilt from the page's `meta`,
 * its `title` falling back to the page's `title`.
 */
module SearchSync {
  import opened Js

  function BeforeSyncWithSearch(originalDoc: map<string, Value>, searchDoc: map<string, Value>)
    : (r: map<string, Value>)
    ensures r.Keys == searchDoc.Keys + {"slug", "meta"}
    ensures forall k :: k in searchDoc && k != "slug" && k != "meta" ==> r[k] == searchDoc[k]
    ensures r["slug"] == Get(Obj(originalDoc), "slug")
    ensures r["meta"].Obj?
    ensures var meta := Get(Obj(originalDoc), "meta");
            var m := r["meta"].fields;
            && m.Keys == (if meta.Obj? then meta.fields.Keys else {}) + {"title", "description"}
            && m["title"] == (if Truthy(Get(meta, "title")) then Get(meta, "title")
                              else Get(Obj(originalDoc), "title"))
            && m["description"] == Get(meta, "description")
            && (meta.Obj? ==> forall k :: k in meta.fields && k != "title" && k != "description" ==>
                                            m[k] == meta.fields[k])
  {
    var slug := Get(Obj(originalDoc), "slug");
    var title := Get(Obj(originalDoc), "title");
    var meta := Get(Obj(originalDoc), "meta");
    var spread := if meta.Obj? then meta.fields else map[];
    var newMeta := spread["title" := Or(Get(meta, "title"), title)]["description" := Get(meta, "description")];
    searchDoc["slug" := slug]["meta" := Obj(newMeta)]
  }

  /** A page with no `meta` gets a search `meta` holding just its title and an undefined description. */
  lemma NoMetaUsesPageTitle(originalDoc: map<string, Value>, searchDoc: map<string, Value>)
    requires "meta" !in originalDoc
    ensures BeforeSyncWithSearch(originalDoc, searchDoc)["meta"]
            == Obj(map["title" := Get(Obj(originalDoc), "title"), "description" := Undefined])
  {
    var m := BeforeSyncWithSearch(originalDoc, searchDoc)["meta"].fields;
    assert m.Keys == {"title", "description"};
  }
}
