# Notion-backed blog template: block fetcher and index page

This project models the data core of a Next.js blog whose pages live in a Notion
workspace, and proves properties of that model.

- **Block-tree fetcher** (`getBlocks`). It removes the separators from a block id and
  lists the block's children, one page of at most 100. Every child that has an id
  gains its own fetched `children`. The resulting sibling sequence is then passed
  through the list grouper. The grouper wraps every maximal run of
  `bulleted_list_item` (`numbered_list_item`) blocks in one synthetic
  `bulleted_list` (`numbered_list`) container with a fresh id, so the renderer can
  emit one `<ul>` (`<ol>`) per run.
- **Collection reader** (`getDatabase`). It queries the collection named by the
  `NOTION_DATABASE_ID` setting, or the empty id when the setting is unset or empty.
- **Index page** (`Home`). It renders one list item per collection entry. A
  complete entry becomes a card:
  - it links to `/<id>`;
  - its title is the plain text of the title runs, joined with no separator;
  - it shows the external cover URL, or the empty string when there is none.

  Any other entry becomes the message `データが不足しています。` ("not enough data").

## Modules

| file | module | what it holds |
|---|---|---|
| `options.dfy` | `Options` | `Option` |
| `blocks.dfy` | `Blocks` | blocks, their `type` tag (`Kind`), payload and `children` |
| `block_ids.dfy` | `BlockIds` | id canonicalisation |
| `grouping.dfy` | `Grouping` | the list grouper: the run-by-run definition `Group` and the accumulator pass `GroupSiblings` proved to compute it |
| `fetch.dfy` | `Fetch` | the recursive fetch, as functions (`Fetch`, `Attach`) and as the step-by-step method `GetBlocks` |
| `database.dfy` | `Database` | the collection id and the query |
| `index_page.dfy` | `IndexPage` | the index page |

### How the environment is represented

- **Workspace client.** The client is a function from a list request (block id and
  page size) to a page of blocks.
- **Collection query.** The query is a function from a collection id to entries.
- **`NOTION_DATABASE_ID`.** The setting is an `Option<string>`; `None` stands for an
  unset setting.
- **Random container ids.** `getRandomInt(10 ** 99, 10 ** 100)` becomes a generator
  `newId: nat -> string` and a counter:
  - one call of the grouper gives its containers `newId(next)`, `newId(next + 1)`,
    and so on, in order;
  - the fetch threads the counter through the tree: a block's children draw first, in
    order, then the block's own grouping.
- **Termination.** The recursion of `getBlocks` ends because the workspace's tree is
  finite. The model expresses this as a rank on canonical ids that every child with
  an id lies strictly below (`Fetch.Ranked`).
- **Block `type`.** The tag is the datatype `Kind`, because `type` is a Dafny
  keyword. Its cases are the four types the grouper looks at, plus every other type
  by name.

## Model

| member | source | states |
|---|---|---|
| Blocks.ContainerOf | src/lib/notion.ts:36-53 | a bulleted item's run goes into a `bulleted_list`, a numbered item's into a `numbered_list` |
| Blocks.ItemOf | src/lib/notion.ts:36-53 | a container type holds exactly the item type that maps to it |
| BlockIds.Canonical | src/lib/notion.ts:19 | the canonical id contains no `-` and is no longer than the id |
| BlockIds.CanonicalOfPlain | src/lib/notion.ts:19 | an id without `-` is left unchanged |
| BlockIds.CanonicalIdempotent | src/lib/notion.ts:19 | canonicalising twice equals canonicalising once |
| BlockIds.CanonicalAppend | src/lib/notion.ts:19 | canonicalisation distributes over concatenation, so kept characters keep their order |
| BlockIds.CanonicalKeeps | src/lib/notion.ts:19 | every character other than `-` occurs as often in the result as in the id |
| BlockIds.CanonicalDropsSeparators | src/lib/notion.ts:19 | the result is shorter than the id by exactly the number of `-` |
| Grouping.GroupSiblings | src/lib/notion.ts:35-60 | the reduce loop over siblings returns exactly `Group` of its input and draws one fresh id per run (`Runs`); its result has no list items, and an input without list items (its own result included) comes back unchanged with no id drawn |
| Grouping.GroupAppendOther | src/lib/notion.ts:56-58 | appending a block that is not a list item appends it unchanged to the grouped sequence |
| Grouping.GroupAppendJoin | src/lib/notion.ts:37-38 | an item whose kind matches the last container joins that container's items; no id is drawn |
| Grouping.GroupAppendOpen | src/lib/notion.ts:39-45 | an item the last block cannot take opens a new container holding just that item, with the next fresh id |
| Grouping.GroupFlattens | src/lib/notion.ts:35-60 | round trip: replacing every container by its items gives back the input, in order |
| Grouping.GroupHasNoListItems | src/lib/notion.ts:35-60 | no list item remains at the top level |
| Grouping.GroupNoAdjacentLists | src/lib/notion.ts:37 | no two neighbouring containers are of the same kind, so each run is maximal |
| Grouping.GroupListsWellFormed | src/lib/notion.ts:40-53 | every container is non-empty and holds only items of its own kind |
| Grouping.GroupIsGrouped | src/lib/notion.ts:35-60 | the result has all three invariants of a grouped sibling sequence |
| Grouping.GroupKeepsOthers | src/lib/notion.ts:56-58 | the blocks that are neither items nor containers are kept verbatim and in order |
| Grouping.GroupWithoutItems | src/lib/notion.ts:56-58 | a sequence without list items is returned unchanged, and draws no id |
| Grouping.GroupIdempotent | src/lib/notion.ts:35-60 | grouping a grouped sequence changes nothing and draws no id |
| Grouping.GroupNewIds | src/lib/notion.ts:41 | the containers carry the ids `newId(next)`, `newId(next + 1)`, ..., one per run, in order |
| Grouping.GroupNoLonger | src/lib/notion.ts:35-60 | the grouped sequence is no longer than its input |
| Grouping.GroupIds | src/lib/notion.ts:40-44 | at every depth, each id occurs among the containers of the grouped sequence as often as in the input plus as often as among the ids the call draws |
| Grouping.DrawnOnce | src/lib/notion.ts:41 | a generator that never repeats an id draws every id at most once |
| Grouping.DrawnFrom | src/lib/notion.ts:41 | an id drawn in a range of counter values is `newId(k)` for some `k` in that range |
| Grouping.GroupDrawsFrom | src/lib/notion.ts:40-44 | each block of the result is an input block, or a fresh container without `children` whose items are input blocks |
| Fetch.Request | src/lib/notion.ts:21-24 | the request carries an id without `-` and page size 100 |
| Fetch.Attach | src/lib/notion.ts:26-32 | one block out per block in; id, type and payload are kept; a block with an id gains `children`; a block without one is unchanged |
| Fetch.Fetch | src/lib/notion.ts:18-62 | the fetch only moves the fresh-id counter forward |
| Fetch.FetchCanonical | src/lib/notion.ts:19 | an id and its canonical form fetch the same tree |
| Fetch.AttachAt | src/lib/notion.ts:27-31 | the `i`-th block with an id gets as `children` exactly `getBlocks` of its id; one without an id is left as is |
| Fetch.FetchPage | src/lib/notion.ts:18-62 | one fetched page: grouped, at most 100 blocks, and its flattening is the workspace's page for the canonical id, block by block |
| Fetch.FetchTidy | src/lib/notion.ts:18-62 | every sibling sequence of the fetched tree, at every depth, is grouped |
| Fetch.AttachTidy | src/lib/notion.ts:26-32 | attaching children to a page of plain blocks yields only blocks whose subtrees are grouped |
| Fetch.FetchIds | src/lib/notion.ts:18-62 | the container ids of a fetched tree, at every depth, are exactly the ids drawn with the counter values the fetch used, each as often as drawn |
| Fetch.AttachIds | src/lib/notion.ts:26-32 | attaching children adds exactly the ids that the children's fetches draw |
| Fetch.GroupedIds | src/lib/notion.ts:35-60 | grouping a page whose ids are those drawn from `next` on extends that to the ids the grouping draws |
| Fetch.FetchIdsDistinct | src/lib/notion.ts:40-44 | with a generator that never repeats an id, no two containers anywhere in a fetched tree share an id, so the ids the detail page renders as keys do not collide among containers |
| Fetch.FetchIdsDrawn | src/lib/notion.ts:41 | every container id in a fetched tree is `newId(k)` for a counter value `k` the fetch used |
| Fetch.GetBlocks | src/lib/notion.ts:18-62 | the step-by-step fetch (list, fetch children in order, group with the reduce pass) returns exactly `Fetch` |
| Database.DatabaseId | src/lib/notion.ts:9 | the setting when set to a non-empty string, otherwise `""`; the result is empty exactly when the setting is unset or empty |
| Database.GetDatabase | src/lib/notion.ts:7-12 | the configured collection is queried, or the empty id when the setting is unset |
| IndexPage.CoverUrl | src/app/page.tsx:22-25 | an external cover gives its URL; a hosted-file cover or none gives `""` |
| IndexPage.ViewEntry | src/app/page.tsx:11-67 | a card exactly when all five guarded fields are present, keyed by the id, linking to `"/" + id`, titled by the joined runs, with the cover URL; otherwise the fixed message |
| IndexPage.Home | src/app/page.tsx:10-68 | one item per entry, in order, each the entry's view |
| IndexPage.TitleTextAppend | src/app/page.tsx:19-21 | joining distributes over concatenation of the runs |
| IndexPage.TitleTextRun | src/app/page.tsx:19-21 | each run's text sits directly between the texts of the runs before and after it: there is no separator |
| IndexPage.HomeCards | src/app/page.tsx:10-42 | the page has one card per complete entry, in order, and each card links to `"/" + ` that entry's id |

## Left out

- The Notion client itself, `NOTION_TOKEN` and the network are parameters: the client and the query are functions; their failures (errors, rate limits) are not modelled.
- `getPage` (src/lib/notion.ts:14-16) is a single client call with no logic of its own; it is not modelled.
- `Promise.all` runs the children's fetches concurrently. The model runs them one after the other, in order. Only the order in which fresh ids are drawn depends on this, and the source's ids are random anyway.
- `getRandomInt` is replaced by a generator and a counter (see above). The distinctness of container ids (`Fetch.FetchIdsDistinct`) is proved for a generator that never repeats an id. A random draw repeating an earlier one, and a drawn id equal to a workspace block's id, are not modelled.
- Fetch.Paged: assumes four things of every page the workspace returns:
  - at most `pageSize` blocks, which `Fetch.FetchPage`'s bound of 100 rests on;
  - none of the grouper's synthetic `bulleted_list`/`numbered_list` types, and no `Other` type spelled like one of the four reserved names;
  - no `children` field;
  - payloads the fetcher does not look into.

  On a page holding synthetic containers, the source would push items into such a block's payload in place (`children?.push`), aliasing a workspace object. The model groups on values and does not model that aliasing. `Grouping.GroupSiblings` accepts such a page only when it has no list items.
- Fetch.Ranked: assumes every child with an id ranks below its parent, for every id the client answers, so the workspace has no cycle anywhere. A workspace with a cycle is outside the model, even one whose cycle is not reachable from the fetched block, where the source does terminate.
- Cursor pagination: only the first page (at most 100 children) is ever requested, as in the source. The remaining children of a larger block are dropped in both.
- The last-edited date of an entry (`new Date(...).toLocaleString()`, src/app/page.tsx:18) is computed and never rendered. It is not modelled, because it depends on the locale and clock.
- The JSX markup, class names, the `詳細を見る` link text, `layout.tsx`, `Header.tsx` and the detail page's block renderer are presentation, not part of this model.
- An entry missing a guarded field is not dropped from the list. It renders as the fixed message `データが不足しています。`, as src/app/page.tsx:67 does.
