/** The page metadata component (src/components/SEO.jsx): the title, description,
    canonical address, sharing image and type, each with a site-wide default, and
    the same values repeated in the Open Graph and Twitter tags. */
module Seo {
  import opened JsValues

  const SiteTitle := "DD Tours and Travels | Elite Adventure Expeditions"
  const TitleSuffix := " | DD Tours and Travels"
  const SiteUrl := "https://ddtours.in"
  const DefaultDescription := "Join elite expeditions across India. Trekking in Himalayas, Jungle Survival, and Desert Safaris. Verified reviews and seamless booking."
  const DefaultImage := SiteUrl + "/images/social-img.webp"

  /** The component's props; `Undefined` marks one that was not passed. */
  datatype Props = Props(title: Json, description: Json, image: Json, url: Json, kind: Json, schema: Json)

  /** One emitted head tag: its attribute key and its content. */
  datatype Tag = Tag(key: string, content: Json)

  /** The document head: the title, the meta and link tags in order, and the
      structured-data script when there is a schema. */
  datatype Head = Head(title: string, tags: seq<Tag>, schema: Option<Json>)

  /** The page title: `${title} | DD Tours and Travels`, or the site title. */
  function CurrentTitle(title: Json): string
  {
    if Truthy(title) then ToString(title) + TitleSuffix else SiteTitle
  }

  /** The head for the given props, with `locationHref` standing for the browser's
      current address. */
  function Render(p: Props, locationHref: string): (h: Head)
    ensures |h.tags| == 12
    ensures h.schema.Some? <==> Truthy(p.schema)
    ensures h.schema.Some? ==> h.schema.value == p.schema
    ensures !Truthy(p.title) ==> h.title == SiteTitle
    ensures Truthy(p.title) ==> |h.title| >= |TitleSuffix| && h.title[|h.title| - |TitleSuffix|..] == TitleSuffix
  {
    var title := CurrentTitle(p.title);
    var desc := Or(p.description, Str(DefaultDescription));
    var url := Or(p.url, Str(locationHref));
    var image := Or(p.image, Str(DefaultImage));
    var kind := if p.kind.Undefined? then Str("website") else p.kind;
    Head(title,
         [Tag("description", desc), Tag("canonical", url),
          Tag("og:site_name", Str("DD Tours")), Tag("og:type", kind),
          Tag("og:title", Str(title)), Tag("og:description", desc),
          Tag("og:image", image), Tag("og:url", url),
          Tag("twitter:card", Str("summary_large_image")),
          Tag("twitter:title", Str(title)), Tag("twitter:description", desc),
          Tag("twitter:image", image)],
         if Truthy(p.schema) then Some(p.schema) else None)
  }

  /** The content of the first tag with the given key. */
  function Content(tags: seq<Tag>, key: string): Option<Json>
  {
    if tags == [] then None
    else if tags[0].key == key then Some(tags[0].content)
    else Content(tags[1..], key)
  }

  /** A tag is found by its key when no earlier tag has that key. */
  lemma {:induction false} ContentAt(tags: seq<Tag>, i: nat, key: string)
    requires i < |tags| && tags[i].key == key
    requires forall j :: 0 <= j < i ==> tags[j].key != key
    ensures Content(tags, key) == Some(tags[i].content)
    decreases i
  {
    if i > 0 {
      ContentAt(tags[1..], i - 1, key);
    }
  }

  /** The keys of the emitted tags are pairwise distinct, so each is found at its
      own position. */
  lemma TagsFound(p: Props, locationHref: string)
    ensures var tags := Render(p, locationHref).tags;
      forall i :: 0 <= i < |tags| ==> Content(tags, tags[i].key) == Some(tags[i].content)
  {
    var tags := Render(p, locationHref).tags;
    forall i | 0 <= i < |tags| ensures Content(tags, tags[i].key) == Some(tags[i].content) {
      ContentAt(tags, i, tags[i].key);
    }
  }

  /** Every channel carries the same values: the Open Graph and Twitter title,
      description and image agree with the standard ones, and the Open Graph
      address is the canonical one. */
  lemma ChannelsAgree(p: Props, locationHref: string)
    ensures var h := Render(p, locationHref);
      && Content(h.tags, "og:title") == Some(Str(h.title)) && Content(h.tags, "twitter:title") == Some(Str(h.title))
      && Content(h.tags, "og:description") == Content(h.tags, "description")
      && Content(h.tags, "twitter:description") == Content(h.tags, "description")
      && Content(h.tags, "twitter:image") == Content(h.tags, "og:image")
      && Content(h.tags, "og:url") == Content(h.tags, "canonical")
  {
    TagsFound(p, locationHref);
    var tags := Render(p, locationHref).tags;
    assert tags[4].key == "og:title" && tags[9].key == "twitter:title" && tags[5].key == "og:description";
    assert tags[0].key == "description" && tags[10].key == "twitter:description";
    assert tags[11].key == "twitter:image" && tags[6].key == "og:image";
    assert tags[7].key == "og:url" && tags[1].key == "canonical";
  }

  /** The defaults: a page without a title gets the site title and one with a
      title gets it followed by the site name; a missing description, image or
      address falls back to the site's; the type defaults to "website" only when
      it was not passed at all; the structured data appears only for a truthy
      schema. */
  lemma Defaults(p: Props, locationHref: string)
    ensures var h := Render(p, locationHref);
      && (!Truthy(p.title) ==> h.title == SiteTitle)
      && (p.title.Str? && p.title.s != "" ==> h.title == p.title.s + TitleSuffix)
      && (!Truthy(p.description) ==> Content(h.tags, "description") == Some(Str(DefaultDescription)))
      && (Truthy(p.description) ==> Content(h.tags, "description") == Some(p.description))
      && (!Truthy(p.image) ==> Content(h.tags, "og:image") == Some(Str(DefaultImage)))
      && (!Truthy(p.url) ==> Content(h.tags, "canonical") == Some(Str(locationHref)))
      && (p.kind.Undefined? ==> Content(h.tags, "og:type") == Some(Str("website")))
      && (p.kind == Null ==> Content(h.tags, "og:type") == Some(Null))
      && (h.schema.Some? <==> Truthy(p.schema))
  {
    TagsFound(p, locationHref);
    var tags := Render(p, locationHref).tags;
    assert tags[0].key == "description" && tags[6].key == "og:image";
    assert tags[1].key == "canonical" && tags[3].key == "og:type";
  }
}
