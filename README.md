# Portfolio core, modelled in Dafny

A model of the logic in a personal portfolio web application. The model covers two parts.

The server part has three pieces:
- the in-memory repository `MemStorage`: a project table and a contact-message table, each keyed by ids from its own auto-increment counter;
- the decisions made by the HTTP handlers: 200 or 404 for one project, the project list, and 201, 400 or rethrow for a contact message;
- the start-up seed, which creates each of two projects only when no stored project already has its title.

The client part has two pieces:
- the state update of the animated starfield: population size, colour class, radius tier, clamped twinkle opacity, upward drift with wrap-around, and the shooting stars' fade-in/fade-out lifecycle with removal in place;
- the two constellation renderers, Taurus and the cat. They are modelled as one engine with two constant presets: layout, wobble, twinkle, the connection path and the glyph of each star.

Files:
- `wrappers.dfy`: `Option`.
- `host.dfy`: the ranges of `Math.random()` and of sines and cosines, plus one product-bounds lemma.
- `storage.dfy`: the `Store` value and its specification functions, and the class `MemStorage`, which updates the same four fields in place.
- `seed_data.dfy`: the two seed records, with their content text written out exactly.
- `routes.dfy`: the handlers, the `field` text (`path.join('.')`) with its split/join round trips, and the seed.
- `starfield.dfy`: star and shooting-star values, their specification functions, and the class `StarrySky`, which holds the canvas size and both arrays.
- `constellation.dfy`: the presets, the layout, point mapping, path and glyphs, and the class `Canvas` with its resize guard.

Some properties come straight out of the source:
- ids are handed out 1, 2, 3, … and never reused, so the number of stored rows equals the number of creates;
- `getProjects` after a create is the old list followed by the new row;
- seeding establishes both titles and is idempotent;
- a star's opacity is always in [0.1, 1], and the opacity of a generated star stays below 0.7;
- a shooting star reaches full opacity on exactly its 13th frame and becomes invisible on its 80th;
- the reverse splice loop leaves exactly the survivors, in their original order, each faded and advanced;
- before its wobble, Taurus never leaves the canvas; the 3 px wobble can carry a point up to 3 px past an edge;
- the cat stays on canvases up to 700 px wide. On wider canvases it stays exactly when 0.51 times the shorter side is at most 0.4 times the width (`CatNoseOnWideCanvas`). A 1000 by 1000 canvas pushes its nose off (`CatLeavesWideCanvas`); a 1000 by 400 canvas holds all of it (`CatFitsWideShortCanvas`).

The proofs assume no I/O. Three kinds of input are parameters instead:
- the clock (`createdAt`, which is `new Date()`);
- every `Math.random()` draw, a real in [0, 1);
- every sine and cosine of the animation time, a real in [-1, 1].

## Model

| member | source | states |
|---|---|---|
| Storage.OrNull | server/storage.ts:66-68 | an omitted field and an explicit null are both stored as null; a given value is stored unchanged |
| Storage.NewProject | server/storage.ts:59-70 | the new row carries the given id and clock reading, copies the four text fields, and stores each optional field as given or null |
| Storage.NewMessage | server/storage.ts:77-81 | the new message is the insert record spread, plus the id and the clock reading |
| Storage.RowsUpTo | server/storage.ts:50-52 | the rows 1..n come out in id order, one per id |
| Storage.ProjectList | server/storage.ts:50-52 | `getProjects` lists exactly projectId-1 rows; row k is the one stored under id k+1 |
| Storage.Lookup | server/storage.ts:54-56 | `getProject(id)` finds a row exactly when 1 <= id < projectId, and that row carries the id it was asked for |
| Storage.AddProject | server/storage.ts:58-73 | a create takes the counter as a fresh id and advances the counter by one; it keeps the repository invariant and changes no other id or table |
| Storage.AddMessage | server/storage.ts:75-84 | a message create takes the message counter as a fresh id and advances that counter by one; the projects are untouched |
| Storage.RowsUpToUpdate | server/storage.ts:71 | storing a row above every listed id leaves the listing of those ids unchanged |
| Storage.ListAfterAdd | server/storage.ts:58-73 | after a create, `getProjects` returns the previous list with the new row appended |
| Storage.TableSizes | server/storage.ts:58-84 | each table holds as many rows as its counter has handed out ids, and the project list is that long too |
| Storage.AddProjects | server/storage.ts:58-73 | a run of n creates advances the counter by n and gives the k-th created row the id counter+k |
| Storage.IdsIncrease | server/storage.ts:59 | successive creates hand out strictly increasing ids |
| Storage.CountAfterCreates | server/storage.ts:58-73 | from a fresh repository, n creates leave n stored and n listed projects |
| Storage.MemStorage.constructor | server/storage.ts:43-48 | a new repository has both maps empty and both counters at 1 |
| Storage.MemStorage.GetProjects | server/storage.ts:50-52 | returns the stored projects in id order |
| Storage.MemStorage.GetProject | server/storage.ts:54-56 | returns the row stored under the id, or nothing when the id was never handed out |
| Storage.MemStorage.CreateProject | server/storage.ts:58-73 | updates the fields in place exactly as the create specification says and keeps the invariant |
| Storage.MemStorage.CreateMessage | server/storage.ts:75-84 | updates the fields in place exactly as the message-create specification says and keeps the invariant |
| Routes.ProjectReply | server/routes.ts:19-22 | the status is 404 with "Project not found" exactly when nothing was found; otherwise it is 200 with the project |
| Routes.DecimalString | server/routes.ts:34 | an index segment is written as a non-empty run of decimal digits |
| Routes.DecimalRoundTrip | server/routes.ts:34 | the decimal text of an index reads back as that index |
| Routes.Join | server/routes.ts:34 | `parts.join(sep)`: the pieces with the separator between each pair; the partner of `Split` |
| Routes.Split | server/routes.ts:34 | splitting at a character gives at least one piece, and no piece contains that character |
| Routes.SplitPrefix | server/routes.ts:34 | a dot-free prefix extends only the first piece of a split |
| Routes.SplitJoin | server/routes.ts:34 | joining dot-free pieces with "." and splitting at "." gives the pieces back |
| Routes.JoinSplit | server/routes.ts:34 | splitting any string at a character and joining with that character gives the string back |
| Routes.KeyTexts | server/routes.ts:34 | each path segment is written as its key, or as its index in decimal |
| Routes.KeyText | server/routes.ts:34 | one path segment's text: a key's name, or an index in decimal |
| Routes.PathText | server/routes.ts:34 | the `field` text: the segment texts joined with "." |
| Routes.FieldNamesPath | server/routes.ts:34 | when no key contains a dot, the `field` text splits back into the path's segment texts, in order |
| Routes.ValidationReply | server/routes.ts:31-35 | a validation error gets 400 with the first issue's message and dotted path; an empty issue list throws instead |
| Routes.ListProjects | server/routes.ts:12-15 | the list route answers 200 with every stored project, in id order |
| Routes.GetProject | server/routes.ts:17-23 | the project route answers 404 exactly when the id is not an integer that was handed out; otherwise it answers 200 with that row |
| Routes.PostMessage | server/routes.ts:25-39 | valid input is stored as one new message and answered with 201 and that message; a validation error or any other error stores nothing and is answered or rethrown |
| Routes.HasTitle | server/routes.ts:46 | `some(p => p.title === t)` holds exactly when some listed project has that title |
| Routes.Holds | server/routes.ts:46 | some stored project, as `getProjects` lists them, carries the title |
| Routes.Seeded | server/routes.ts:42-111 | the seed keeps the repository invariant |
| Routes.AppendHolds | server/routes.ts:46 | appending a project adds its title to the titles present and removes none |
| Routes.AddHolds | server/routes.ts:47-75 | after creating a seed project, the titles present are the previous ones plus its own |
| Routes.SeedCreatesMissing | server/routes.ts:45-111 | the seed creates one row per missing title, each equal to the seed record under the next id |
| Routes.SeedKeepsExisting | server/routes.ts:42-111 | the seed never changes or removes an existing project and does not touch the messages |
| Routes.SeedEstablishes | server/routes.ts:42-111 | after the seed, both "VytalCare" and "ProVytal-Marketing-Site" are present |
| Routes.SeedIdempotent | server/routes.ts:42-111 | seeding a store that already holds both titles changes nothing; seeding twice equals seeding once |
| Routes.Seed | server/routes.ts:42-111 | the in-place seed leaves exactly the state the seed specification gives |
| Routes.RegisterRoutes | server/routes.ts:7-117 | registration runs the seed and returns the server it was given |
| Starfield.StarCount | client/src/components/StarryBackground.tsx:47 | the star count n is the largest n with n * 1500 <= width * height; it is 0 on an empty canvas |
| Starfield.StarCountExample | client/src/components/StarryBackground.tsx:47 | a 1000 by 1500 canvas gets 1000 stars |
| Starfield.Rgb | client/src/components/StarryBackground.tsx:52-56 | the `r, g, b` text each colour class is painted with |
| Starfield.StarColorFor | client/src/components/StarryBackground.tsx:50-57 | each colour class is chosen exactly when the draw falls in its interval: [0, 0.1), [0.1, 0.4), [0.4, 0.7), [0.7, 0.9), [0.9, 1) |
| Starfield.TierOf | client/src/components/StarryBackground.tsx:62-64 | the radius tier is tiny below 0.9, medium below 0.97, large otherwise |
| Starfield.StarRadius | client/src/components/StarryBackground.tsx:60-64 | the radius ranges per tier: tiny [0.15, 0.75), medium [0.6, 1.8), large [0.8, 2.8) |
| Starfield.NewStar | client/src/components/StarryBackground.tsx:66-75 | a new star lies on the canvas, takes its radius from its tier, and has every attribute in the range its formula allows |
| Starfield.Population | client/src/components/StarryBackground.tsx:59-76 | the population has StarCount entries; entry i is built from draw i |
| Starfield.AlphaMod | client/src/components/StarryBackground.tsx:95-100 | the twinkle factor lies in [0.2, 1] |
| Starfield.Clamp | client/src/components/StarryBackground.tsx:101 | the clamp lands in [0.1, 1], keeps values already there, and maps values below 0.1 to 0.1 and values above 1 to 1 |
| Starfield.CurrentAlpha | client/src/components/StarryBackground.tsx:100-101 | a star's opacity is in [0.1, 1] for any inputs |
| Starfield.GeneratedAlphaBelowOne | client/src/components/StarryBackground.tsx:70-101 | for a generated star, the opacity stays below 0.7, so the upper clamp never applies |
| Starfield.Drifted | client/src/components/StarryBackground.tsx:123-127 | a star moves up by its speed; once above -10 it reappears at height+10 with a fresh x; every other attribute is unchanged |
| Starfield.DriftStaysOnSky | client/src/components/StarryBackground.tsx:122-127 | drift keeps every star within the canvas width and within 10 px above or below the canvas |
| Starfield.Spawned | client/src/components/StarryBackground.tsx:131-146 | a new shooting star is invisible and fading in; it starts in the upper 30% of the canvas, up to 1.5 widths across, with speed, length and thickness in the drawn ranges |
| Starfield.Faded | client/src/components/StarryBackground.tsx:154-162 | while fading in, opacity rises by 0.08 until it reaches 1, where it is set to exactly 1 and fading out begins; afterwards it falls by 0.015 |
| Starfield.FadeMonotone | client/src/components/StarryBackground.tsx:154-162 | the fade keeps its invariant; opacity strictly rises while fading in and strictly falls afterwards |
| Starfield.FadeStepsAdd | client/src/components/StarryBackground.tsx:154-162 | a+b frames of fading equal a frames followed by b frames |
| Starfield.FadeInRamp | client/src/components/StarryBackground.tsx:155-159 | from 0, after k <= 12 frames the opacity is 0.08k and the star is still fading in |
| Starfield.FadeOutRamp | client/src/components/StarryBackground.tsx:161 | once fading out, k frames lower the opacity by 0.015k |
| Starfield.FadeInThirteen | client/src/components/StarryBackground.tsx:154-159 | from 0, full opacity is reached on exactly the 13th frame |
| Starfield.Lifetime | client/src/components/StarryBackground.tsx:154-166 | a spawned shooting star is visible on frames 1 to 79 and is removed for opacity on frame 80 |
| Starfield.Removed | client/src/components/StarryBackground.tsx:164 | a shooting star is removed when, after this frame's fade, its opacity is at most 0, it is more than its trail length left of the canvas, or more than its trail length below it |
| Starfield.Advanced | client/src/components/StarryBackground.tsx:198-199 | a star that stays moves by its velocity |
| Starfield.UpdateFrom | client/src/components/StarryBackground.tsx:150-200 | the loop's effect on entries i onwards: each faded entry is dropped if removed, otherwise kept and advanced, in order; it never holds more entries than it started with |
| Starfield.Update | client/src/components/StarryBackground.tsx:150-200 | the whole array's update for one frame; it never grows the array |
| Starfield.SurvivorsAreAdvanced | client/src/components/StarryBackground.tsx:150-200 | each entry left by the loop is the faded and moved version of one original entry |
| Starfield.SurvivorsInOrder | client/src/components/StarryBackground.tsx:150-167 | survivors keep their original relative order |
| Starfield.SurvivorsExactly | client/src/components/StarryBackground.tsx:164-167 | an entry is spliced out exactly when, after this frame's fade, it is invisible or past the left or bottom edge by its trail length |
| Starfield.UpdateKeepsFadeOk | client/src/components/StarryBackground.tsx:150-200 | every survivor is visible and keeps the fade invariant |
| Starfield.StarrySky.constructor | client/src/components/StarryBackground.tsx:205-207 | mounting sizes the canvas to the window, builds the population and leaves no shooting stars |
| Starfield.StarrySky.ResizeCanvas | client/src/components/StarryBackground.tsx:37-41 | a resize takes the window size and rebuilds the population for the new area |
| Starfield.StarrySky.InitStars | client/src/components/StarryBackground.tsx:43-77 | the push loop empties both arrays, then fills the stars with exactly the population specification |
| Starfield.StarrySky.DriftStars | client/src/components/StarryBackground.tsx:92-128 | each star gets its opacity for this frame and is drifted in place; the population invariant is kept |
| Starfield.StarrySky.MaybeSpawn | client/src/components/StarryBackground.tsx:131-147 | a shooting star is appended exactly when the chance draw is below 0.005 |
| Starfield.StarrySky.UpdateShootingStars | client/src/components/StarryBackground.tsx:150-200 | the reverse loop with its in-place splice leaves exactly the update specification of the old array |
| Starfield.StarrySky.AnimateFrame | client/src/components/StarryBackground.tsx:79-203 | one frame drifts every star, may spawn, then updates the shooting stars, and keeps the invariant |
| Constellation.TaurusTables | client/src/components/TaurusConstellation.tsx:14-37 | Taurus has 12 points in the unit square and 11 connections between existing points |
| Constellation.CatTables | client/src/components/CatConstellation.tsx:15-37 | the cat has 9 points in the unit square and 8 connections between existing points |
| Constellation.LayoutFor | client/src/components/TaurusConstellation.tsx:55-60 | the square is scale times the shorter side and is centred vertically; horizontally it is centred up to 700 px and placed at the preset's offset above that |
| Constellation.BasePosition | client/src/components/TaurusConstellation.tsx:68-69 | a point's position before wobble: the layout offset plus the point's fraction of the square's side |
| Constellation.AxisInside | client/src/components/TaurusConstellation.tsx:68-69 | a unit fraction of a span that fits on an axis stays on that axis |
| Constellation.WideFits | client/src/components/TaurusConstellation.tsx:56-58 | on a wide canvas, an offset plus scale of at most 1 keeps the square within the width |
| Constellation.SquareInside | client/src/components/TaurusConstellation.tsx:55-60 | the layout square lies on the canvas whenever scale <= 1 and, on wide canvases, offset + scale <= 1 |
| Constellation.BaseOnCanvas | client/src/components/TaurusConstellation.tsx:62-73 | under those conditions, every point of the shape lies on the canvas before wobble |
| Constellation.TaurusOnCanvas | client/src/components/TaurusConstellation.tsx:55-73 | every Taurus point lies on the canvas before wobble, for every canvas size |
| Constellation.CatOnNarrowCanvas | client/src/components/CatConstellation.tsx:56-74 | every cat point lies on canvases up to 700 px wide, before wobble |
| Constellation.CatNoseOnWideCanvas | client/src/components/CatConstellation.tsx:56-74 | on a canvas wider than 700 px, the cat's nose stays on the canvas exactly when 0.51 times the shorter side is at most 0.4 times the width |
| Constellation.BoundedFraction | client/src/components/CatConstellation.tsx:69 | a point no further right than xMax in the unit square lands no further than xMax times the side past the offset |
| Constellation.CatOnWideCanvas | client/src/components/CatConstellation.tsx:56-74 | under that condition, every cat point lies on a wide canvas before wobble |
| Constellation.CatFitsWideShortCanvas | client/src/components/CatConstellation.tsx:56-74 | on a 1000 by 400 canvas, every cat point lies on the canvas before wobble |
| Constellation.CatLeavesWideCanvas | client/src/components/CatConstellation.tsx:56-74 | on a 1000 by 1000 canvas, the cat's nose sits at x = 1110, off the canvas |
| Constellation.MapPoint | client/src/components/TaurusConstellation.tsx:62-73 | a mapped point is within 3 px of its base position on each axis, and its twinkle is in [0, 1] |
| Constellation.MappedPoints | client/src/components/TaurusConstellation.tsx:62-73 | one mapped point per table point, in table order |
| Constellation.TracePath | client/src/components/TaurusConstellation.tsx:84-91 | the path holds one segment per connection, from the first end's mapped point to the second's |
| Constellation.GlyphFor | client/src/components/TaurusConstellation.tsx:95-111 | a glyph sits at its point; its radius is the base radius plus 1.5 times the twinkle, and its fill opacity is the base fill plus the fill gain times the twinkle, with the highlight's constants for the highlighted point |
| Constellation.TaurusGlyphBounds | client/src/components/TaurusConstellation.tsx:96-110 | Taurus star radii are in [1.5, 3] with fill opacity in [0.5, 0.9]; Aldebaran's radius is in [2.2, 3.7] with fill opacity in [0.7, 0.9] |
| Constellation.CatGlyphBounds | client/src/components/CatConstellation.tsx:96-105 | cat star radii are in [1.5, 3], with fill opacity in [0.6, 1] |
| Constellation.DrawGlyphs | client/src/components/TaurusConstellation.tsx:95-111 | one glyph per mapped point, with the point's index deciding the highlight |
| Constellation.Canvas.FitToParent | client/src/components/TaurusConstellation.tsx:43-49 | with a parent, the canvas takes its client size, and is written only when the size differs; without a parent nothing changes |
| Constellation.Draw | client/src/components/TaurusConstellation.tsx:41-116 | one frame fits the canvas, then lays out, maps, traces and builds glyphs on the canvas's new size; every drawn point is within 3 px of its base position and has a twinkle in [0, 1] |
| Constellation.DrawCounts | client/src/components/TaurusConstellation.tsx:84-91 | each Taurus frame strokes 11 segments and each cat frame 8, each on its own canvas |

The two constellation files share every line of logic apart from their constants and Taurus's highlighted star at index 4 (Aldebaran, with its own radius, fill and glow), which is modelled as the preset's `highlight`. The shared members cite TaurusConstellation.tsx; the same lines sit one or two lines lower in CatConstellation.tsx.

## Left out

- `DatabaseStorage` and the choice between it and `MemStorage` (server/storage.ts:12-35, 87): they need a database. The model always uses the in-memory repository.
- The seed's `catch` and every `console.log`/`console.error`: with the in-memory repository no seed step can fail, and logging has no effect on the state.
- Express plumbing: route paths, `res.json` serialisation, `async`/`await`. The handlers act on the repository directly and run one at a time.
- The Zod schema that parses a contact message. Its definition is not part of this model. The parser's result is a parameter (`ParseResult`), and the message fields (name, email, message) are inferred from the contact form.
- Routes.GetProject: `Number(req.params.id)` is not modelled as string conversion; the id arrives already converted, as an integer or as nothing (NaN or a fraction, which match no key).
- Storage.MemStorage.GetProjects: JavaScript Map iteration order is taken as insertion order. Ids are inserted in increasing order, so the list is in id order.
- Every pixel operation: gradients, `shadowBlur`/`shadowColor`, the three star glow tiers, `rgba` strings, dashed lines, `arc`/`fill`/`stroke`, and the shooting-star tail and head geometry.
- `requestAnimationFrame`, `cancelAnimationFrame` and the window resize listener: each frame and each resize is one method call.
- `Date.now()`, `Math.sin`, `Math.cos` and `Math.random()` are parameters. Every random draw is required to be in [0, 1) wherever it enters. Every sine and cosine taken by `Spawned`, `MaybeSpawn`, `DriftStars`, `AnimateFrame`, `Draw` and `DrawCounts` is required to be in [-1, 1]. The sines and cosines are not tied to the time or, for the spawn angle, to the angle draw.
- Every canvas quantity is an exact real, not an IEEE-754 double. This covers the layout, the clamp, the colour and tier thresholds, the spawn ranges, the wobble and the fade steps. No rounding is modelled anywhere.
- Starfield.Lifetime: the 13-frame fade-in and the 80-frame life are exact-arithmetic counts. Rounding of repeated additions of 0.08 and 0.015 could shift a frame boundary, and that is not modelled.
- Storage.AddProject and Storage.AddMessage: the counters are unbounded integers. In the source they are JavaScript numbers, and past 2^53 `projectId++` and `messageId++` (server/storage.ts:59, 76) would stop producing distinct ids. No real repository reaches that many creates, so the model does not capture it.
- Starfield.StarrySky.DriftStars: one x draw per star is a parameter. The source only draws it for a star that wraps around, so the sequence of draws consumed is not modelled.
- Constellation.Canvas.constructor: the 300 by 150 start size is the HTML canvas default, not a line of these files.
- Constellation.CatOnNarrowCanvas: it is stated only up to 700 px wide. On wider canvases the cat fits only under the condition of `CatOnWideCanvas`, and `CatLeavesWideCanvas` shows a canvas where it does not.
- Constellation.TaurusOnCanvas: it covers positions before the wobble. The wobble adds up to 3 px on each axis (`MapPoint`), so a point near an edge of a small canvas can sit up to 3 px outside it.
- The early returns when the canvas element or its 2D context is missing (StarryBackground.tsx:7-11, TaurusConstellation.tsx:7-11, CatConstellation.tsx:7-11): without either there is nothing to draw. The model assumes both exist.
- The pages and other components (Contact, ProjectDetail, Navbar and the rest): they are callers, not core logic.
