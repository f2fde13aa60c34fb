/**
 * The post store (lib/posts-util.js): post records built from the Markdown files'
 * front matter, sorted newest first, and the featured, by-type and technology views of
 * them. Reading the directory and the files and parsing the front matter are inputs.
 */
module PostsUtil {
  import opened Wrappers
  import opened Seqs

  /** A front-matter value. */
  datatype Value = Str(s: string) | Flag(b: bool) | Number(n: int) | Strings(items: seq<string>)

  /** A post record: front-matter fields by name. */
  type Fields = map<string, Value>

  /** What the front-matter parser returns for a file: its fields and its Markdown body. */
  datatype Parsed = Parsed(data: Fields, content: string)

  const Md := ".md"

  predicate EndsWithMd(identifier: string) {
    |identifier| >= 3 && identifier[|identifier| - 3..] == Md
  }

  /** `postIdentifier.replace(/\.md$/, "")`: one trailing ".md" removed. */
  function PostSlug(identifier: string): (slug: string)
    ensures EndsWithMd(identifier) ==> slug + Md == identifier
    ensures !EndsWithMd(identifier) ==> slug == identifier
  {
    if EndsWithMd(identifier) then identifier[..|identifier| - 3] else identifier
  }

  /** The file a slug is read from, `${postSlug}.md` inside the posts directory. */
  function PostFile(slug: string): (file: string)
    ensures EndsWithMd(file)
  {
    slug + Md
  }

  /** A slug's file name gives back the slug. */
  lemma SlugOfPostFile(slug: string)
    ensures PostSlug(PostFile(slug)) == slug
  {
    assert (slug + Md)[..|slug|] == slug;
  }

  /** A directory entry is read from itself when it is a Markdown file name, and from name + ".md" otherwise. */
  lemma PostFileOfIdentifier(identifier: string)
    ensures PostFile(PostSlug(identifier)) == if EndsWithMd(identifier) then identifier else identifier + Md
  {
  }

  /**
   * `{ slug: postSlug, ...data, content }`: the derived slug unless the front matter has
   * its own, every front-matter field, and the parsed body as `content`.
   */
  function GetPostData(identifier: string, parsed: Parsed): (post: Fields)
    ensures "slug" in post && "content" in post
    ensures post["content"] == Str(parsed.content)
    ensures "slug" in parsed.data ==> post["slug"] == parsed.data["slug"]
    ensures "slug" !in parsed.data ==> post["slug"] == Str(PostSlug(identifier))
    ensures forall k :: k != "slug" && k != "content" ==>
              (k in post <==> k in parsed.data) && (k in post ==> post[k] == parsed.data[k])
  {
    map["slug" := Str(PostSlug(identifier))] + parsed.data + map["content" := Str(parsed.content)]
  }

  function Field(post: Fields, name: string): Option<Value> {
    if name in post then Some(post[name]) else None
  }

  /** JavaScript truthiness of a possibly missing field. */
  predicate Truthy(v: Option<Value>) {
    match v
    case None => false
    case Some(Str(s)) => s != ""
    case Some(Flag(b)) => b
    case Some(Number(n)) => n != 0
    case Some(Strings(_)) => true
  }

  /**
   * The `date` field as compared by `>`: the string, or "" when it is missing or not a
   * string (`>` on numbers and on `undefined` is not modelled).
   */
  function DateOf(post: Fields): (date: string)
    ensures "date" in post && post["date"].Str? ==> date == post["date"].s
    ensures date != "" ==> "date" in post && post["date"] == Str(date)
  {
    if "date" in post && post["date"].Str? then post["date"].s else ""
  }

  /** The order of `getAllPosts`: a post may come before another when its date is not smaller. */
  function NewerFirst(a: Fields, b: Fields): (first: bool)
    ensures DateOf(a) == DateOf(b) ==> first
    ensures first || LexLe(DateOf(a), DateOf(b))
    ensures LexLe(DateOf(a), DateOf(b)) && DateOf(a) != DateOf(b) ==> !first
  {
    LexLeTotal(DateOf(b), DateOf(a));
    LexLeAntisymmetric(DateOf(b), DateOf(a));
    LexLe(DateOf(b), DateOf(a))
  }

  lemma NewerFirstIsTotalPreorder()
    ensures TotalPreorder(NewerFirst)
  {
    forall a, b ensures NewerFirst(a, b) || NewerFirst(b, a) {
      LexLeTotal(DateOf(a), DateOf(b));
    }
    forall a, b, c | NewerFirst(a, b) && NewerFirst(b, c) ensures NewerFirst(a, c) {
      LexLeTransitive(DateOf(c), DateOf(b), DateOf(a));
    }
  }

  /** The records of the listed files, each read from its slug's file by `read`. */
  function PostsOf(files: seq<string>, read: string -> Parsed): (posts: seq<Fields>)
    ensures |posts| == |files|
    ensures forall i :: 0 <= i < |files| ==>
              posts[i] == GetPostData(files[i], read(PostFile(PostSlug(files[i]))))
  {
    MapOf(files, f => GetPostData(f, read(PostFile(PostSlug(f)))))
  }

  /** `getAllPosts`: every post, newest first. */
  function GetAllPosts(files: seq<string>, read: string -> Parsed): (all: seq<Fields>)
    ensures multiset(all) == multiset(PostsOf(files, read))
  {
    SortByPermutes(PostsOf(files, read), NewerFirst);
    SortBy(PostsOf(files, read), NewerFirst)
  }

  /** `getAllPosts` returns a permutation of the posts with dates non-increasing. */
  lemma GetAllPostsSorted(files: seq<string>, read: string -> Parsed)
    ensures multiset(GetAllPosts(files, read)) == multiset(PostsOf(files, read))
    ensures |GetAllPosts(files, read)| == |files|
    ensures var all := GetAllPosts(files, read);
            forall i, j :: 0 <= i < j < |all| ==> LexLe(DateOf(all[j]), DateOf(all[i]))
  {
    NewerFirstIsTotalPreorder();
    SortByCorrect(PostsOf(files, read), NewerFirst);
  }

  predicate IsFeatured(post: Fields) {
    Truthy(Field(post, "isFeatured"))
  }

  /** `getFeaturedPosts`. */
  function GetFeaturedPosts(files: seq<string>, read: string -> Parsed): (featured: seq<Fields>)
    ensures forall i :: 0 <= i < |featured| ==> IsFeatured(featured[i])
    ensures multiset(featured) <= multiset(PostsOf(files, read))
  {
    FilterSpec(GetAllPosts(files, read), IsFeatured);
    Filter(GetAllPosts(files, read), IsFeatured)
  }

  /** Filtering the sorted posts keeps exactly the posts passing the filter, newest first. */
  lemma FilterOfAllPosts(files: seq<string>, read: string -> Parsed, f: Fields -> bool)
    ensures forall p :: p in Filter(GetAllPosts(files, read), f) <==> p in PostsOf(files, read) && f(p)
    ensures SortedBy(Filter(GetAllPosts(files, read), f), NewerFirst)
  {
    var all := GetAllPosts(files, read);
    GetAllPostsSorted(files, read);
    NewerFirstIsTotalPreorder();
    SortByCorrect(PostsOf(files, read), NewerFirst);
    FilterSpec(all, f);
    assert forall p :: p in all <==> p in multiset(all);
    FilterPreservesSorted(all, f, NewerFirst);
  }

  /** The featured posts are exactly the posts with a truthy `isFeatured`, newest first. */
  lemma GetFeaturedPostsSpec(files: seq<string>, read: string -> Parsed)
    ensures forall p :: p in GetFeaturedPosts(files, read) <==> p in PostsOf(files, read) && IsFeatured(p)
    ensures SortedBy(GetFeaturedPosts(files, read), NewerFirst)
  {
    FilterOfAllPosts(files, read, IsFeatured);
  }

  /** The filter of `getPostsByType`: the `type` field is exactly the string `postType`. */
  function HasType(postType: string): Fields -> bool {
    p => Field(p, "type") == Some(Str(postType))
  }

  /** `getPostsByType(type)`: the posts whose `type` field is exactly `type`. */
  function GetPostsByType(files: seq<string>, read: string -> Parsed, postType: string): (ofType: seq<Fields>)
    ensures forall i :: 0 <= i < |ofType| ==> Field(ofType[i], "type") == Some(Str(postType))
    ensures multiset(ofType) <= multiset(PostsOf(files, read))
  {
    FilterSpec(GetAllPosts(files, read), HasType(postType));
    Filter(GetAllPosts(files, read), HasType(postType))
  }

  /** The posts of a type are exactly the posts whose `type` is that string, newest first. */
  lemma GetPostsByTypeSpec(files: seq<string>, read: string -> Parsed, postType: string)
    ensures forall p :: p in GetPostsByType(files, read, postType) <==>
              p in PostsOf(files, read) && Field(p, "type") == Some(Str(postType))
    ensures SortedBy(GetPostsByType(files, read, postType), NewerFirst)
  {
    FilterOfAllPosts(files, read, HasType(postType));
  }

  /** The technology list of a post whose `tech` is an array; nothing for the others. */
  function TechOf(post: Fields): seq<string> {
    if "tech" in post && post["tech"].Strings? then post["tech"].items else []
  }

  /** `getAllTechStack`: every technology of every post, once, in first-occurrence order. */
  method GetAllTechStack(files: seq<string>, read: string -> Parsed) returns (stack: seq<string>)
    ensures stack == Dedup(Flatten(MapOf(GetAllPosts(files, read), TechOf)))
  {
    var allPosts := GetAllPosts(files, read);
    stack := CollectDistinct(MapOf(allPosts, TechOf));
  }

  /** The stack is duplicate-free and holds exactly the technologies of the posts. */
  lemma TechStackSpec(posts: seq<Fields>)
    ensures NoDuplicates(Dedup(Flatten(MapOf(posts, TechOf))))
    ensures forall x :: x in Dedup(Flatten(MapOf(posts, TechOf))) <==>
              exists i :: 0 <= i < |posts| && x in TechOf(posts[i])
  {
    forall x ensures x in Flatten(MapOf(posts, TechOf)) <==>
                     exists i :: 0 <= i < |posts| && x in TechOf(posts[i]) {
      InFlatten(MapOf(posts, TechOf), x);
    }
  }
}
