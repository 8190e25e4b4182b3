/** The static project image catalogue: a map from project category to the
    folder its images live in, and, per category, the ordered list of images
    shown for it. */
module ProjectImages {
  import opened Common

  datatype ProjectImage = ProjectImage(src: string, alt: string, category: string)

  /** The four categories the catalogue knows, each with its image folder
      ('Photo & Video' borrows the Social folder). */
  const CategoryFolderMap: map<string, string> :=
    map["Branding" := "Branding", "Social Media" := "Social", "Web" := "Web", "Photo & Video" := "Social"]

  const Placeholder: string := "/placeholder.svg"

  /** A Web gallery entry: file `<n><ext>` of the termalna-rivijera project,
      captioned with the same number. */
  function WebImage(n: string, ext: string): ProjectImage
  {
    ProjectImage(WebFolder + n + ext, WebCaption + n, "Web")
  }

  const WebFolder: string := "/projects/Web/termalna-rivijera/"
  const WebCaption: string := "Termalna rivijera - Image "

  const WebImages: seq<ProjectImage> := [
    WebImage("1", ".png"),
    WebImage("2", ".png"),
    WebImage("3", ".png"),
    WebImage("4", ".png"),
    WebImage("5", ".svg"),
    WebImage("6", ".svg"),
    WebImage("7", ".png"),
    WebImage("8", ".png"),
    WebImage("9", ".svg"),
    WebImage("10", ".png"),
    WebImage("11", ".svg")
  ]

  /** A Branding gallery entry: file `<file>.svg`, captioned as design
      `<design>`. */
  function BrandingImage(file: string, design: string): ProjectImage
  {
    ProjectImage(BrandingFolder + file + ".svg", BrandingCaption + design, "Branding")
  }

  const BrandingFolder: string := "/projects/Branding/"
  const BrandingCaption: string := "Branding - Design "

  const BrandingImages: seq<ProjectImage> := [
    BrandingImage("2", "1"),
    BrandingImage("3", "2"),
    BrandingImage("4", "3"),
    BrandingImage("5", "4"),
    BrandingImage("6", "5"),
    BrandingImage("7", "6"),
    BrandingImage("8", "7")
  ]

  const SocialMediaImages: seq<ProjectImage> := [
    ProjectImage("/projects/Social/1.svg", "Social Media - Post 1", "Social Media"),
    ProjectImage("/projects/Social/2.svg", "Social Media - Post 2", "Social Media"),
    ProjectImage("/projects/Social/3.svg", "Social Media - Post 3", "Social Media")
  ]

  const PhotoVideoImages: seq<ProjectImage> := [
    ProjectImage("/projects/Social/1.svg", "Photo & Video - Content 1", "Photo & Video"),
    ProjectImage("/projects/Social/2.svg", "Photo & Video - Content 2", "Photo & Video"),
    ProjectImage("/projects/Social/3.svg", "Photo & Video - Content 3", "Photo & Video")
  ]

  /** `getProjectImages`: an unmapped category yields no images; a mapped one
      goes through the branch chain, Web first. */
  function GetProjectImages(category: string): (r: seq<ProjectImage>)
    ensures r != [] <==> category in CategoryFolderMap
    ensures forall k :: 0 <= k < |r| ==> r[k].category == category
  {
    if category !in CategoryFolderMap then []
    else if category == "Web" then WebImages
    else if category == "Branding" then BrandingImages
    else if category == "Social Media" then SocialMediaImages
    else if category == "Photo & Video" then PhotoVideoImages
    else []
  }

  /** `getProjectMainImage`: the first image's source, or the placeholder. */
  function GetProjectMainImage(category: string): (r: string)
    ensures category in CategoryFolderMap ==> r == GetProjectImages(category)[0].src
    ensures category !in CategoryFolderMap ==> r == Placeholder
  {
    var images := GetProjectImages(category);
    if |images| > 0 then images[0].src else Placeholder
  }

  /** The `.map(img => img.src)` projection. */
  function Sources(images: seq<ProjectImage>): (r: seq<string>)
    ensures |r| == |images|
    ensures forall k :: 0 <= k < |r| ==> r[k] == images[k].src
  {
    if images == [] then [] else [images[0].src] + Sources(images[1..])
  }

  /** `getProjectAllImages`. */
  function GetProjectAllImages(category: string): (r: seq<string>)
    ensures |r| == |GetProjectImages(category)|
    ensures forall k :: 0 <= k < |r| ==> r[k] == GetProjectImages(category)[k].src
  {
    Sources(GetProjectImages(category))
  }

  /** The folder prefix every image of a category must carry. */
  function FolderPrefix(category: string): string
    requires category in CategoryFolderMap
  {
    "/projects/" + CategoryFolderMap[category] + "/"
  }

  /** The folder map knows exactly four categories; each has the folder of
      its own name except 'Social Media' and 'Photo & Video', which share the
      Social folder. */
  lemma FolderMapContents()
    ensures CategoryFolderMap.Keys == {"Branding", "Social Media", "Web", "Photo & Video"}
    ensures CategoryFolderMap["Branding"] == "Branding" && CategoryFolderMap["Web"] == "Web"
    ensures CategoryFolderMap["Social Media"] == "Social" && CategoryFolderMap["Photo & Video"] == "Social"
  {
  }

  /** Every key of the folder map has its own branch: the trailing `return []`
      is reached only by categories that are not in the map. */
  lemma MappedCategoriesHaveBranches(category: string)
    requires category in CategoryFolderMap
    ensures category in {"Web", "Branding", "Social Media", "Photo & Video"}
    ensures GetProjectImages(category) != []
  {
  }

  /** Every returned image lives under `/projects/<folder>/`, where `<folder>`
      is the map's folder for the requested category. */
  lemma ImagesLiveInCategoryFolder(category: string, k: nat)
    requires k < |GetProjectImages(category)|
    ensures category in CategoryFolderMap
    ensures FolderPrefix(category) <= GetProjectImages(category)[k].src
  {
    if category == "Web" {
      assert FolderPrefix(category) == "/projects/Web/";
      WebUnderFolder(k);
    } else if category == "Branding" {
      assert FolderPrefix(category) == "/projects/Branding/";
      BrandingUnderFolder(k);
    } else {
      assert FolderPrefix(category) == "/projects/Social/";
      SocialUnderFolder(category, k);
    }
  }

  lemma WebUnderFolder(k: nat)
    requires k < |WebImages|
    ensures "/projects/Web/" <= WebImages[k].src
  {
    WebGallery(k);
    WebFolderPrefix(Decimal(k + 1), ".png");
    WebFolderPrefix(Decimal(k + 1), ".svg");
  }

  lemma WebFolderPrefix(n: string, ext: string)
    ensures "/projects/Web/" <= WebFolder + n + ext
  {
    assert WebFolder == "/projects/Web/" + "termalna-rivijera/";
    assert WebFolder + n + ext == "/projects/Web/" + ("termalna-rivijera/" + n + ext);
    PrefixOfConcat("/projects/Web/", "termalna-rivijera/" + n + ext);
  }

  lemma BrandingUnderFolder(k: nat)
    requires k < |BrandingImages|
    ensures "/projects/Branding/" <= BrandingImages[k].src
  {
    BrandingGallery(k);
    PrefixOfConcat(BrandingFolder, Decimal(k + 2) + ".svg");
  }

  lemma SocialUnderFolder(category: string, k: nat)
    requires category == "Social Media" || category == "Photo & Video"
    requires k < |GetProjectImages(category)|
    ensures "/projects/Social/" <= GetProjectImages(category)[k].src
  {
    SocialGalleries(category, k);
    PrefixOfConcat("/projects/Social/", Decimal(k + 1) + ".svg");
  }

  lemma PrefixOfConcat(p: string, rest: string)
    ensures p <= p + rest
  {
  }

  /** The decimal numerals of 1 to 11, the numbers the galleries use. */
  const Numerals: seq<string> := ["1", "2", "3", "4", "5", "6", "7", "8", "9", "10", "11"]

  /** `String(n)` for the numbers 1 to 11. */
  lemma SmallDecimals(n: nat)
    requires 1 <= n <= |Numerals|
    ensures Decimal(n) == Numerals[n - 1]
  {
    if n == 1 {
      assert Decimal(1) == "1";
    } else if n == 2 {
      assert Decimal(2) == "2";
    } else if n == 3 {
      assert Decimal(3) == "3";
    } else if n == 4 {
      assert Decimal(4) == "4";
    } else if n == 5 {
      assert Decimal(5) == "5";
    } else if n == 6 {
      assert Decimal(6) == "6";
    } else if n == 7 {
      assert Decimal(7) == "7";
    } else if n == 8 {
      assert Decimal(8) == "8";
    } else if n == 9 {
      assert Decimal(9) == "9";
    } else if n == 10 {
      assert Decimal(10) == "10";
    } else if n == 11 {
      assert Decimal(11) == "11";
    }
  }

  /** The Web gallery: eleven images of the termalna-rivijera project,
      numbered 1 to 11 in order, each a PNG or an SVG. */
  lemma WebGallery(k: nat)
    requires k < |GetProjectImages("Web")|
    ensures |GetProjectImages("Web")| == 11
    ensures var img := GetProjectImages("Web")[k];
      var n := Decimal(k + 1);
      (img.src == WebFolder + n + ".png" || img.src == WebFolder + n + ".svg") &&
      img.alt == WebCaption + n
  {
    SmallDecimals(k + 1);
  }

  /** The Web gallery's file types: files 5, 6, 9 and 11 are SVGs and the
      other seven are PNGs, so each source is pinned exactly. */
  lemma WebGalleryFileTypes(k: nat)
    requires k < |GetProjectAllImages("Web")|
    ensures GetProjectAllImages("Web")[k] == WebFolder + Numerals[k] + WebExtension(k + 1)
  {
    assert GetProjectImages("Web") == WebImages;
    WebImageAt(k);
  }

  /** The extension of Web file `n`. */
  function WebExtension(n: nat): string
  {
    if n in {5, 6, 9, 11} then ".svg" else ".png"
  }

  lemma WebImageAt(k: nat)
    requires k < |WebImages|
    ensures WebImages[k] == WebImage(Numerals[k], WebExtension(k + 1))
  {
    if k < 4 {
    } else if k < 6 {
    } else if k < 8 {
    } else {
    }
  }

  /** The Branding gallery: seven designs, files 2.svg to 8.svg in order. */
  lemma BrandingGallery(k: nat)
    requires k < |GetProjectImages("Branding")|
    ensures |GetProjectImages("Branding")| == 7
    ensures var img := GetProjectImages("Branding")[k];
      img.src == BrandingFolder + Decimal(k + 2) + ".svg" &&
      img.alt == BrandingCaption + Decimal(k + 1)
  {
    SmallDecimals(k + 1);
    SmallDecimals(k + 2);
  }

  /** 'Social Media' and 'Photo & Video' both show Social files 1.svg to
      3.svg in order. */
  lemma SocialGalleries(category: string, k: nat)
    requires category == "Social Media" || category == "Photo & Video"
    requires k < |GetProjectImages(category)|
    ensures |GetProjectImages(category)| == 3
    ensures GetProjectImages(category)[k].src == "/projects/Social/" + Decimal(k + 1) + ".svg"
  {
  }

  /** 'Social Media' and 'Photo & Video' show the same three Social files. */
  lemma SocialGalleriesShareFiles()
    ensures GetProjectAllImages("Social Media") == GetProjectAllImages("Photo & Video")
    ensures GetProjectAllImages("Social Media") == ["/projects/Social/1.svg", "/projects/Social/2.svg", "/projects/Social/3.svg"]
  {
  }

  /** The main image is the first entry of the full source list, and the
      placeholder is returned exactly for the categories without images. */
  lemma MainImageIsFirstOfAll(category: string)
    ensures GetProjectAllImages(category) != [] ==>
      GetProjectMainImage(category) == GetProjectAllImages(category)[0]
    ensures GetProjectMainImage(category) == Placeholder <==> GetProjectAllImages(category) == []
  {
    var images := GetProjectImages(category);
    if images != [] {
      ImagesLiveInCategoryFolder(category, 0);
      var p := FolderPrefix(category);
      assert p <= images[0].src;
      assert images[0].src[..|p|] == p;
      assert images[0].src[2] == 'r' != Placeholder[2];
    }
  }
}
