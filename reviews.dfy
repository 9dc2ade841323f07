/** The content graph: genres, categories, titles, reviews and comments, their
    field and uniqueness constraints, and what deleting a row does to the rows
    that reference it (`on_delete=CASCADE` and `SET_NULL`). The users table is
    part of the same store, since reviews and comments reference their authors. */
module Reviews {
  import opened Outcomes
  import opened Users

  type GenreId = nat
  type CategoryId = nat
  type TitleId = nat
  type ReviewId = nat
  type CommentId = nat

  datatype Genre = Genre(name: string, slug: string)

  datatype Category = Category(name: string, slug: string)

  /** `category` is nullable; `genres` is the many-to-many relation. */
  datatype Title = Title(
    name: string,
    description: Option<string>,
    category: Option<CategoryId>,
    genres: set<GenreId>,
    year: int)

  datatype Review = Review(title: TitleId, author: UserId, text: string, score: int)

  datatype Comment = Comment(review: ReviewId, author: UserId, text: string)

  /** The bounds of `MinValueValidator(1)` and `MaxValueValidator(10)` on `score`. */
  const MinScore: int := 1
  const MaxScore: int := 10

  predicate ScoreInRange(score: int) {
    MinScore <= score <= MaxScore
  }

  /** `Genre.slug` is unique. */
  predicate UniqueGenreSlugs(genres: map<GenreId, Genre>) {
    forall a, b :: a in genres && b in genres && genres[a].slug == genres[b].slug ==> a == b
  }

  /** `Category.slug` is unique. */
  predicate UniqueCategorySlugs(categories: map<CategoryId, Category>) {
    forall a, b :: a in categories && b in categories && categories[a].slug == categories[b].slug ==> a == b
  }

  /** The `unique_category` constraint on (name, category). As in SQL, a null
      category equals nothing, so titles without a category are not constrained. */
  predicate UniqueTitlePerCategory(titles: map<TitleId, Title>) {
    forall a, b ::
      (a in titles && b in titles && titles[a].category.Some? &&
       titles[a].name == titles[b].name && titles[a].category == titles[b].category) ==> a == b
  }

  /** The `unique_review` constraint on (title, author). */
  predicate OneReviewPerAuthor(reviews: map<ReviewId, Review>) {
    forall a, b ::
      (a in reviews && b in reviews &&
       reviews[a].title == reviews[b].title && reviews[a].author == reviews[b].author) ==> a == b
  }

  predicate ScoresInRange(reviews: map<ReviewId, Review>) {
    forall r :: r in reviews ==> ScoreInRange(reviews[r].score)
  }

  /** Every title's category (when not null) and genres exist. */
  predicate TitlesReferTo(titles: map<TitleId, Title>, categories: map<CategoryId, Category>, genres: map<GenreId, Genre>) {
    forall t :: t in titles ==>
      (titles[t].category.Some? ==> titles[t].category.value in categories) && titles[t].genres <= genres.Keys
  }

  /** Every review's title and author exist. */
  predicate ReviewsReferTo(reviews: map<ReviewId, Review>, titles: map<TitleId, Title>, users: map<UserId, User>) {
    forall r :: r in reviews ==> reviews[r].title in titles && reviews[r].author in users
  }

  /** Every comment's review and author exist. */
  predicate CommentsReferTo(comments: map<CommentId, Comment>, reviews: map<ReviewId, Review>, users: map<UserId, User>) {
    forall k :: k in comments ==> comments[k].review in reviews && comments[k].author in users
  }

  /** Does `author` already have a review of `title`? */
  predicate HasReviewed(reviews: map<ReviewId, Review>, title: TitleId, author: UserId) {
    exists r :: r in reviews && reviews[r].title == title && reviews[r].author == author
  }

  function ReviewsOfTitle(reviews: map<ReviewId, Review>, t: TitleId): set<ReviewId> {
    set r | r in reviews && reviews[r].title == t
  }

  function ReviewsBy(reviews: map<ReviewId, Review>, u: UserId): set<ReviewId> {
    set r | r in reviews && reviews[r].author == u
  }

  function CommentsOn(comments: map<CommentId, Comment>, rs: set<ReviewId>): set<CommentId> {
    set k | k in comments && comments[k].review in rs
  }

  function CommentsBy(comments: map<CommentId, Comment>, u: UserId): set<CommentId> {
    set k | k in comments && comments[k].author == u
  }

  /** The database: every table, and the primary-key sequences of the tables
      the modelled write path inserts into. */
  class Database {
    var accounts: Accounts
    var genres: map<GenreId, Genre>
    var categories: map<CategoryId, Category>
    var titles: map<TitleId, Title>
    var reviews: map<ReviewId, Review>
    var comments: map<CommentId, Comment>
    var nextReviewId: ReviewId

    /** The unique constraints, the score validators, and referential
        integrity of every foreign key. */
    ghost predicate Valid()
      reads this
    {
      && accounts.Valid()
      && UniqueGenreSlugs(genres)
      && UniqueCategorySlugs(categories)
      && UniqueTitlePerCategory(titles)
      && OneReviewPerAuthor(reviews)
      && ScoresInRange(reviews)
      && TitlesReferTo(titles, categories, genres)
      && (forall r :: r in reviews ==> r < nextReviewId)
      && ReviewsReferTo(reviews, titles, accounts.users)
      && CommentsReferTo(comments, reviews, accounts.users)
    }

    constructor ()
      ensures Valid()
      ensures accounts == Accounts(map[], 0) && nextReviewId == 0
      ensures genres == map[] && categories == map[] && titles == map[]
      ensures reviews == map[] && comments == map[]
    {
      accounts := Accounts(map[], 0);
      genres, categories, titles := map[], map[], map[];
      reviews, comments := map[], map[];
      nextReviewId := 0;
    }

    /** `User.objects.get_or_create(email=email, username=username)`: the row
        with both values, or a new row with defaults under the next key. The
        INSERT keeps username and email unique only when no other row holds
        one of the two, which `SameIdentity` says. */
    method GetOrCreateUser(email: string, username: string) returns (id: UserId, created: bool)
      requires Valid()
      requires SameIdentity(accounts.users, username, email)
      modifies this`accounts
      ensures Valid()
      ensures created <==> UserWithEmailAndUsername(old(accounts.users), email, username) == None
      ensures !created ==> UserWithEmailAndUsername(old(accounts.users), email, username) == Some(id)
      ensures !created ==> accounts == old(accounts)
      ensures created ==> id == old(accounts.nextId) && id !in old(accounts.users)
      ensures created ==> accounts == Accounts(old(accounts.users)[id := NewUser(username, email)], id + 1)
    {
      var found := UserWithEmailAndUsername(accounts.users, email, username);
      if found.Some? {
        id, created := found.value, false;
      } else {
        id, created := accounts.nextId, true;
        accounts := Accounts(accounts.users[id := NewUser(username, email)], id + 1);
      }
    }

    /** `user.save()` of an existing row; the unique constraints on username
        and email must still hold afterwards. */
    method SaveUser(id: UserId, user: User)
      requires Valid()
      requires id in accounts.users
      requires UniqueUsernames(accounts.users[id := user]) && UniqueEmails(accounts.users[id := user])
      modifies this`accounts
      ensures Valid()
      ensures accounts == old(accounts).(users := old(accounts.users)[id := user])
    {
      accounts := accounts.(users := accounts.users[id := user]);
    }

    /** INSERT of a review that passed the serializer's validators, under the
        next key. */
    method InsertReview(review: Review) returns (id: ReviewId)
      requires Valid()
      requires review.title in titles && review.author in accounts.users
      requires ScoreInRange(review.score)
      requires !HasReviewed(reviews, review.title, review.author)
      modifies this`reviews, this`nextReviewId
      ensures Valid()
      ensures id == old(nextReviewId) && id !in old(reviews)
      ensures reviews == old(reviews)[id := review] && nextReviewId == id + 1
    {
      id := nextReviewId;
      reviews := reviews[id := review];
      nextReviewId := id + 1;
    }

    /** Deleting a genre removes it from every title's genres (the rows of the
        many-to-many table go with it); the titles stay. */
    method DeleteGenre(g: GenreId)
      requires Valid()
      modifies this`genres, this`titles
      ensures Valid()
      ensures genres == old(genres) - {g}
      ensures titles.Keys == old(titles).Keys
      ensures forall t :: t in titles ==> titles[t] == old(titles)[t].(genres := old(titles)[t].genres - {g})
      ensures forall t :: t in titles ==> g !in titles[t].genres
    {
      titles := map t | t in titles :: titles[t].(genres := titles[t].genres - {g});
      genres := genres - {g};
    }

    /** `on_delete=SET_NULL`: deleting a category sets the category of the
        titles in it to null; every title and every other row stays. */
    method DeleteCategory(c: CategoryId)
      requires Valid()
      modifies this`categories, this`titles
      ensures Valid()
      ensures categories == old(categories) - {c}
      ensures titles.Keys == old(titles).Keys
      ensures forall t :: t in titles ==>
        titles[t] == if old(titles)[t].category == Some(c) then old(titles)[t].(category := None) else old(titles)[t]
      ensures forall t :: t in titles ==> titles[t].category != Some(c)
    {
      titles := map t | t in titles ::
        if titles[t].category == Some(c) then titles[t].(category := None) else titles[t];
      categories := categories - {c};
    }

    /** `on_delete=CASCADE` twice over: deleting a title deletes its reviews,
        and deleting those deletes their comments. */
    method DeleteTitle(t: TitleId)
      requires Valid()
      modifies this`titles, this`reviews, this`comments
      ensures Valid()
      ensures titles == old(titles) - {t}
      ensures reviews == old(reviews) - ReviewsOfTitle(old(reviews), t)
      ensures comments == old(comments) - CommentsOn(old(comments), ReviewsOfTitle(old(reviews), t))
      ensures forall r :: r in reviews ==> reviews[r].title != t
      ensures forall k :: k in comments ==> comments[k].review in reviews && reviews[comments[k].review].title != t
    {
      var gone := ReviewsOfTitle(reviews, t);
      comments := comments - CommentsOn(comments, gone);
      reviews := reviews - gone;
      titles := titles - {t};
    }

    /** `on_delete=CASCADE`: deleting a review deletes its comments. */
    method DeleteReview(r: ReviewId)
      requires Valid()
      modifies this`reviews, this`comments
      ensures Valid()
      ensures reviews == old(reviews) - {r}
      ensures comments == old(comments) - CommentsOn(old(comments), {r})
      ensures forall k :: k in comments ==> comments[k].review != r
    {
      comments := comments - CommentsOn(comments, {r});
      reviews := reviews - {r};
    }

    method DeleteComment(k: CommentId)
      requires Valid()
      modifies this`comments
      ensures Valid()
      ensures comments == old(comments) - {k}
    {
      comments := comments - {k};
    }

    /** `on_delete=CASCADE` on both author keys: deleting a user deletes the
        user's reviews and comments, and with those reviews every comment on
        them, whoever wrote it. */
    method DeleteUser(u: UserId)
      requires Valid()
      modifies this`accounts, this`reviews, this`comments
      ensures Valid()
      ensures accounts == old(accounts).(users := old(accounts.users) - {u})
      ensures reviews == old(reviews) - ReviewsBy(old(reviews), u)
      ensures comments == old(comments) - (CommentsBy(old(comments), u) + CommentsOn(old(comments), ReviewsBy(old(reviews), u)))
      ensures forall r :: r in reviews ==> reviews[r].author != u
      ensures forall k :: k in comments ==> comments[k].author != u && reviews[comments[k].review].author != u
    {
      var gone := ReviewsBy(reviews, u);
      comments := comments - (CommentsBy(comments, u) + CommentsOn(comments, gone));
      reviews := reviews - gone;
      RemoveKeepsValid(accounts, u);
      accounts := accounts.(users := accounts.users - {u});
    }
  }
}
